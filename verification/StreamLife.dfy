/** The life of a streamed response: numbered deltas, exactly one terminal item, then nothing; and what
    it leaves behind for the next turn of the conversation. */
module StreamLife {
  import opened Wrappers
  import opened Domain
  import opened Bytes
  import opened Seqs
  import opened Sse
  import opened Pairing
  import ChatStream

  datatype StreamError = Malformed | Cancelled | Transport | PrematureEnd | Provider(reason: string)

  datatype DeltaKind = TextDelta | ToolNameDelta | ToolArgumentsDelta | StatusDelta | SummaryDelta

  datatype StreamEvent =
    | DeltaEvent(sequence: nat, kind: DeltaKind, content: string)
    | CompletedEvent(turn: ChatStream.Turn)

  type Out = Result<StreamEvent, StreamError>

  /** What one decoded message makes of the accumulator: deltas to report, and possibly the end. */
  datatype Reaction<A> = Reaction(acc: A, deltas: seq<(DeltaKind, string)>,
                                  end: Option<Result<ChatStream.Turn, StreamError>>)

  /** The protocol: how a message's JSON is taken in, how the accumulated turn is concluded, and when the
      text of a message is the end marker or blank. */
  datatype Protocol<!A> = Protocol(
    handle: (A, SseMessage) -> Reaction<A>,
    finish: A -> Result<ChatStream.Turn, StreamError>,
    isDone: Bytes -> bool,
    isBlank: Bytes -> bool)

  /** What a read of the body, raced against cancellation, yields; after the last one the body ends. */
  datatype BodyItem = Chunk(bytes: Bytes) | BodyError | Cancel

  function React<A>(p: Protocol<A>, acc: A, m: SseMessage): Reaction<A> {
    if p.isDone(m.data) then Reaction(acc, [], Some(p.finish(acc)))
    else if p.isBlank(m.data) then Reaction(acc, [], None)
    else p.handle(acc, m)
  }

  /** A message, or a decoding error, which ends the stream. */
  function ReactTo<A>(p: Protocol<A>, acc: A, item: Item): Reaction<A> {
    match item
    case Success(m) => React(p, acc, m)
    case Failure(_) => Reaction(acc, [], Some(Failure(Malformed)))
  }

  function EndOut(end: Result<ChatStream.Turn, StreamError>): Out {
    match end case Success(turn) => Success(CompletedEvent(turn)) case Failure(error) => Failure(error)
  }

  /** Empty deltas are skipped, the others numbered from `start` on, saturating. */
  function Numbered(deltas: seq<(DeltaKind, string)>, start: nat): seq<Out> {
    if deltas == [] then []
    else
      var before := Numbered(deltas[..|deltas| - 1], start);
      var (kind, content) := deltas[|deltas| - 1];
      if content == "" then before else before + [Success(DeltaEvent(SaturatingAdd32(start, |before|), kind, content))]
  }

  function OutsOf<A>(r: Reaction<A>, start: nat): seq<Out> {
    Numbered(r.deltas, start) + match r.end case None => [] case Some(end) => [EndOut(end)]
  }

  function SequenceAfter<A>(r: Reaction<A>, start: nat): nat {
    SaturatingAdd32(start, |Numbered(r.deltas, start)|)
  }

  /** The end of the body counts as completion if the accumulator holds a complete turn. */
  function FinalOut<A>(p: Protocol<A>, acc: A): Out {
    match p.finish(acc) case Success(turn) => Success(CompletedEvent(turn)) case Failure(_) => Failure(PrematureEnd)
  }

  /** All that is still to come from a stream that is not done. */
  function Pending<A>(p: Protocol<A>, utf8: Bytes -> bool, acc: A, start: nat, f: Fields, buffer: Bytes,
                      body: seq<BodyItem>, flushed: bool): seq<Out>
    decreases |body|, |buffer|
  {
    if flushed then [FinalOut(p, acc)]
    else
      var (item, g, left) := NextOf(utf8, f, buffer);
      if item.Some? then
        var r := ReactTo(p, acc, item.value);
        OutsOf(r, start) + if r.end.Some? then []
                           else Pending(p, utf8, r.acc, SequenceAfter(r, start), g, left, body, false)
      else if body == [] then
        match FinishItem(utf8, g, left).1
        case None => [FinalOut(p, acc)]
        case Some(last) =>
          var r := ReactTo(p, acc, last);
          OutsOf(r, start) + if r.end.Some? then [] else [FinalOut(p, r.acc)]
      else
        match body[0]
        case Cancel => [Failure(Cancelled)]
        case BodyError => [Failure(Transport)]
        case Chunk(bytes) =>
          if |left| + |bytes| > MAX_SSE_EVENT_BYTES then [Failure(Malformed)]
          else Pending(p, utf8, acc, start, g, left + bytes, body[1..], false)
  }

  // --- Shape --------------------------------------------------------------------------------------

  predicate IsTerminal(out: Out) {
    out.Failure? || out.value.CompletedEvent?
  }

  /** Deltas numbered from `start`, saturating, each with some content. */
  ghost predicate AreDeltas(outs: seq<Out>, start: nat) {
    forall k :: 0 <= k < |outs| ==> IsDeltaNumbered(outs[k], SaturatingAdd32(start, k))
  }

  predicate IsDeltaNumbered(out: Out, sequence: nat) {
    out.Success? && out.value.DeltaEvent? && out.value.sequence == sequence && out.value.content != ""
  }

  /** Numbered deltas, then exactly one terminal item. */
  ghost predicate WellShaped(outs: seq<Out>, start: nat) {
    outs != [] && IsTerminal(outs[|outs| - 1]) && AreDeltas(outs[..|outs| - 1], start)
  }

  lemma {:induction false} NumberedAreDeltas(deltas: seq<(DeltaKind, string)>, start: nat)
    ensures AreDeltas(Numbered(deltas, start), start)
  {
    if deltas != [] {
      NumberedAreDeltas(deltas[..|deltas| - 1], start);
    }
  }

  lemma DeltasThenMore(deltas: seq<Out>, rest: seq<Out>, start: nat)
    requires AreDeltas(deltas, start) && WellShaped(rest, SaturatingAdd32(start, |deltas|))
    ensures WellShaped(deltas + rest, start)
  {}

  lemma ReactionShape<A>(r: Reaction<A>, start: nat, rest: seq<Out>)
    requires if r.end.Some? then rest == [] else WellShaped(rest, SequenceAfter(r, start))
    ensures WellShaped(OutsOf(r, start) + rest, start)
  {
    var deltas := Numbered(r.deltas, start);
    NumberedAreDeltas(r.deltas, start);
    if r.end.Some? {
      DeltasThenMore(deltas, [EndOut(r.end.value)], start);
      assert OutsOf(r, start) + rest == deltas + [EndOut(r.end.value)];
    } else {
      DeltasThenMore(deltas, rest, start);
      assert OutsOf(r, start) == deltas;
    }
  }

  /** For every body, every reaction of the protocol and every way of ending, what is to come is deltas
      numbered consecutively and then exactly one terminal item. */
  lemma {:induction false} PendingIsWellShaped<A>(p: Protocol<A>, utf8: Bytes -> bool, acc: A, start: nat, f: Fields,
                                                  buffer: Bytes,
                                                  body: seq<BodyItem>, flushed: bool)
    ensures WellShaped(Pending(p, utf8, acc, start, f, buffer, body, flushed), start)
    decreases |body|, |buffer|
  {
    if !flushed {
      var (item, g, left) := NextOf(utf8, f, buffer);
      if item.Some? {
        var r := ReactTo(p, acc, item.value);
        if r.end.None? {
          PendingIsWellShaped(p, utf8, r.acc, SequenceAfter(r, start), g, left, body, false);
          ReactionShape(r, start, Pending(p, utf8, r.acc, SequenceAfter(r, start), g, left, body, false));
        } else {
          ReactionShape(r, start, []);
        }
      } else if body == [] {
        var last := FinishItem(utf8, g, left).1;
        if last.Some? {
          var r := ReactTo(p, acc, last.value);
          ReactionShape(r, start, if r.end.Some? then [] else [FinalOut(p, r.acc)]);
        }
      } else if body[0].Chunk? && |left| + |body[0].bytes| <= MAX_SSE_EVENT_BYTES {
        PendingIsWellShaped(p, utf8, acc, start, g, left + body[0].bytes, body[1..], false);
      }
    }
  }

  // --- What is left for the next turn ---------------------------------------------------------------

  /** The identified calls of a turn, in order. */
  function IdentifiedCalls(outputs: seq<ModelOutput>): seq<PendingCall> {
    if outputs == [] then []
    else
      IdentifiedCalls(outputs[..|outputs| - 1]) +
      match outputs[|outputs| - 1]
      case CallOutput(ToolCall(name, arguments, Some(id), _)) => [PendingCall(id, name, arguments)]
      case _ => []
  }

  type Conversations = map<TaskId, seq<PendingCall>>

  /** Completion replaces the task's pending calls by the turn's identified ones; any failure, and a turn
      without such calls, leaves none. */
  function Settled(conversations: Conversations, task: TaskId, terminal: Out): Conversations {
    match terminal
    case Success(CompletedEvent(turn)) =>
      var calls := IdentifiedCalls(turn.outputs);
      if calls == [] then conversations - {task} else conversations[task := calls]
    case _ => conversations - {task}
  }

  method RememberToolCalls(conversations: Conversations, task: TaskId, turn: ChatStream.Turn) returns (r: Conversations)
    ensures r == Settled(conversations, task, Success(CompletedEvent(turn)))
  {
    var calls: seq<PendingCall> := [];
    for i := 0 to |turn.outputs|
      invariant calls == IdentifiedCalls(turn.outputs[..i])
    {
      assert turn.outputs[..i + 1][..i] == turn.outputs[..i];
      match turn.outputs[i]
      case CallOutput(ToolCall(name, arguments, Some(id), _)) => calls := calls + [PendingCall(id, name, arguments)];
      case _ =>
    }
    assert turn.outputs[..|turn.outputs|] == turn.outputs;
    r := if calls == [] then conversations - {task} else conversations[task := calls];
  }

  /** Afterwards the task's pending calls are exactly the identified calls of a completed turn, in order,
      and there are none after a failure or a turn without such calls; other tasks keep theirs. */
  lemma PendingCallsAfter(conversations: Conversations, task: TaskId, terminal: Out, other: TaskId)
    ensures var after := Settled(conversations, task, terminal);
            && (task in after <==> terminal.Success? && terminal.value.CompletedEvent?
                                   && IdentifiedCalls(terminal.value.turn.outputs) != [])
            && (task in after ==> after[task] == IdentifiedCalls(terminal.value.turn.outputs))
            && (other != task ==> (other in after <==> other in conversations)
                                  && (other in after ==> after[other] == conversations[other]))
  {}

  // --- The stream ---------------------------------------------------------------------------------

  class ModelResponseStream<A> {
    const protocol: Protocol<A>
    const task: TaskId
    const decoder: SseDecoder
    var conversations: Conversations
    var body: seq<BodyItem>
    var queue: seq<Out>
    var acc: A
    var sequence: nat
    var bodyFinished: bool
    var decoderFinished: bool
    var done: bool

    ghost predicate Valid()
      reads this, decoder
    {
      && sequence <= U32_MAX
      && (bodyFinished ==> body == [])
      && (decoderFinished ==> bodyFinished)
      && (decoderFinished && !done ==> decoder.buffer == [] && decoder.Collected() == NO_FIELDS)
    }

    /** What is to come once the queue is empty. */
    function Rest(): seq<Out>
      reads this, decoder
    {
      if done then []
      else Pending(protocol, decoder.utf8, acc, sequence, decoder.Collected(), decoder.buffer, body, decoderFinished)
    }

    /** Everything still to come, in order. */
    function Remaining(): seq<Out>
      reads this, decoder
    {
      queue + Rest()
    }

    constructor (protocol: Protocol<A>, utf8: Bytes -> bool, acc: A, task: TaskId, body: seq<BodyItem>,
                 conversations: Conversations)
      ensures Valid() && fresh(decoder) && !done && this.conversations == conversations && this.task == task
      ensures Remaining() == Pending(protocol, utf8, acc, 0, NO_FIELDS, [], body, false)
    {
      this.protocol, this.task, this.body, this.conversations := protocol, task, body, conversations;
      this.acc, this.sequence, this.queue := acc, 0, [];
      this.bodyFinished, this.decoderFinished, this.done := false, false, false;
      this.decoder := new SseDecoder(utf8);
      new;
      AppendEmpty(Rest());
    }

    /** Queues a non-empty delta under the next number. */
    method EmitDelta(kind: DeltaKind, content: string)
      modifies this`queue, this`sequence
      ensures content == "" ==> queue == old(queue) && sequence == old(sequence)
      ensures content != "" ==> queue == old(queue) + [Success(DeltaEvent(old(sequence), kind, content))]
                                && sequence == SaturatingAdd32(old(sequence), 1)
    {
      if content == "" {
        return;
      }
      queue := queue + [Success(DeltaEvent(sequence, kind, content))];
      sequence := SaturatingAdd32(sequence, 1);
    }

    /** Only a completion establishes what the next turn continues. */
    method Complete(turn: ChatStream.Turn)
      requires !done
      modifies this`conversations, this`queue, this`done
      ensures done && queue == old(queue) + [Success(CompletedEvent(turn))]
      ensures conversations == Settled(old(conversations), task, Success(CompletedEvent(turn)))
    {
      conversations := RememberToolCalls(conversations, task, turn);
      done := true;
      queue := queue + [Success(CompletedEvent(turn))];
    }

    method Fail(error: StreamError)
      requires !done
      modifies this`conversations, this`queue, this`done
      ensures done && queue == old(queue) + [Failure(error)]
      ensures conversations == Settled(old(conversations), task, Failure(error))
    {
      conversations := conversations - {task};
      done := true;
      queue := queue + [Failure(error)];
    }

    /** Queues what a reaction brings. */
    method Queue(r: Reaction<A>)
      requires !done && sequence <= U32_MAX
      modifies this`conversations, this`queue, this`done, this`sequence, this`acc
      ensures queue == old(queue) + OutsOf(r, old(sequence)) && acc == r.acc
      ensures done <==> r.end.Some?
      ensures sequence == SequenceAfter(r, old(sequence)) <= U32_MAX
      ensures !done ==> conversations == old(conversations)
      ensures done ==> conversations == Settled(old(conversations), task, EndOut(r.end.value))
    {
      acc := r.acc;
      ghost var before, start := queue, sequence;
      AppendEmpty(before);
      for i := 0 to |r.deltas|
        invariant queue == before + Numbered(r.deltas[..i], start)
        invariant sequence == SaturatingAdd32(start, |Numbered(r.deltas[..i], start)|)
        invariant conversations == old(conversations) && !done && acc == r.acc
      {
        NumberedSnoc(r.deltas, i, start);
        Regroup(before, Numbered(r.deltas[..i], start), Numbered(r.deltas[i..i + 1], sequence));
        EmitDelta(r.deltas[i].0, r.deltas[i].1);
      }
      TakeAll(r.deltas);
      Regroup(before, Numbered(r.deltas, start), if r.end.Some? then [EndOut(r.end.value)] else []);
      match r.end {
        case None =>
        case Some(Success(turn)) => Complete(turn);
        case Some(Failure(error)) => Fail(error);
      }
    }

    /** Conversations change exactly when the stream ends, and then by what its terminal item says. */
    ghost predicate SettledSince(conversationsBefore: Conversations, doneBefore: bool, remainingBefore: seq<Out>)
      reads this
    {
      if done && !doneBefore
      then remainingBefore != []
        && conversations == Settled(conversationsBefore, task, remainingBefore[|remainingBefore| - 1])
      else conversations == conversationsBefore
    }

    /** How much work is left before the end of the body. */
    ghost function Work(): (nat, nat)
      reads this, decoder
    {
      (|body| + if bodyFinished then 0 else 1, |decoder.buffer|)
    }

    /** The end of the body: flushes the decoder once, then concludes with what has accumulated. */
    method Conclude()
      requires Valid() && queue == [] && !done && bodyFinished && LF !in decoder.buffer
      modifies this, decoder
      ensures Valid() && queue != [] && Remaining() == old(Remaining())
      ensures SettledSince(old(conversations), false, old(Remaining()))
    {
      if !decoderFinished {
        decoderFinished := true;
        var last := decoder.Finish();
        match last {
          case Success(Some(message)) => Queue(React(protocol, acc, message));
          case Success(None) =>
          case Failure(_) => Fail(Malformed);
        }
        if queue != [] || done {
          return;
        }
      }
      var turn := protocol.finish(acc);
      match turn {
        case Success(t) => Complete(t);
        case Failure(_) => Fail(PrematureEnd);
      }
    }

    /** Waits for the body or for cancellation. */
    method ReadBody()
      requires Valid() && queue == [] && !done && !bodyFinished && LF !in decoder.buffer
      modifies this, decoder
      ensures Valid() && Remaining() == old(Remaining())
      ensures SettledSince(old(conversations), false, old(Remaining()))
      ensures queue != [] || (!done && Work().0 < old(Work()).0)
    {
      if body == [] {
        bodyFinished := true;
        return;
      }
      var item := body[0];
      body := body[1..];
      match item {
        case Cancel => Fail(Cancelled);
        case BodyError => Fail(Transport);
        case Chunk(bytes) =>
          var pushed := decoder.Push(bytes);
          if pushed.Failure? {
            Fail(Malformed);
          }
      }
    }

    /** Takes in one decoded message, or the decoding error that ends the stream. */
    method Absorb(item: Item)
      requires !done && sequence <= U32_MAX && queue == []
      modifies this`conversations, this`queue, this`done, this`sequence, this`acc
      ensures var r := ReactTo(protocol, old(acc), item);
              && queue == OutsOf(r, old(sequence)) && (done <==> r.end.Some?)
              && (!done ==>
                    acc == r.acc && sequence == SequenceAfter(r, old(sequence)) && conversations == old(conversations))
              && (done ==> conversations == Settled(old(conversations), task, EndOut(r.end.value)))
              && sequence <= U32_MAX
    {
      match item {
        case Success(message) =>
          Queue(React(protocol, acc, message));
          AppendEmpty(OutsOf(React(protocol, old(acc), message), old(sequence)));
        case Failure(_) =>
          Fail(Malformed);
      }
    }

    /** One round of the loop. */
    method Advance()
      requires Valid() && queue == [] && !done
      modifies this, decoder
      ensures Valid() && Remaining() == old(Remaining())
      ensures SettledSince(old(conversations), false, old(Remaining()))
      ensures queue != []
              || (!done && (Work().0 < old(Work()).0 || (Work().0 == old(Work()).0 && Work().1 < old(Work()).1)))
    {
      AppendEmpty(Rest());
      PendingByMessage(protocol, decoder.utf8, acc, sequence, decoder.Collected(), decoder.buffer, body,
                       decoderFinished);
      ghost var a, n, whole := acc, sequence, Rest();
      var next := decoder.NextMessage();
      if next.Some? {
        Absorb(next.value);
        EndIsLast(ReactTo(protocol, a, next.value), n);
      } else {
        assert Rest() == whole;
        AppendEmpty(Rest());
        if bodyFinished {
          Conclude();
        } else {
          ReadBody();
        }
      }
    }

    /** Rounds until something is queued. */
    method FillQueue()
      requires Valid() && queue == [] && !done
      modifies this, decoder
      ensures Valid() && queue != [] && Remaining() == old(Remaining())
      ensures SettledSince(old(conversations), false, old(Remaining()))
    {
      ghost var whole, before := Remaining(), conversations;
      var filled := false;
      while !filled
        invariant Valid() && Remaining() == whole && filled == (queue != [])
        invariant if filled then SettledSince(before, false, whole) else !done && conversations == before
        decreases if filled then 0 else 1, Work().0, Work().1
      {
        Advance();
        filled := queue != [];
      }
    }

    /** The next item of the stream, if any is left. */
    method NextItem() returns (r: Option<Out>)
      requires Valid()
      modifies this, decoder
      ensures Valid()
      ensures r.None? ==> old(Remaining()) == [] && done && Remaining() == []
      ensures r.Some? ==> old(Remaining()) == [r.value] + Remaining()
      ensures SettledSince(old(conversations), old(done), old(Remaining())) && (old(done) ==> done)
    {
      if queue == [] {
        if done {
          return None;
        }
        FillQueue();
      }
      r := Some(queue[0]);
      FirstThenRest(queue, Rest());
      queue := queue[1..];
    }

    /** Reads the stream to its end and once more. */
    method ReadAll() returns (outs: seq<Out>)
      requires Valid()
      modifies this, decoder
      ensures Valid() && done && Remaining() == [] && outs == old(Remaining())
      ensures SettledSince(old(conversations), old(done), old(Remaining()))
    {
      outs := [];
      ghost var whole, before := Remaining(), conversations;
      AppendEmpty(whole);
      var more := true;
      while more
        invariant Valid() && whole == outs + Remaining() && (!more ==> done && Remaining() == [])
        invariant old(done) ==> done
        invariant if done && !old(done) then whole != [] && conversations == Settled(before, task, whole[|whole| - 1])
                  else conversations == before
        decreases if more then 1 else 0, |Remaining()|
      {
        ghost var rest := Remaining();
        assert rest != [] ==> whole[|whole| - 1] == rest[|rest| - 1];
        var next := NextItem();
        match next {
          case None => more := false;
          case Some(out) =>
            Regroup(outs, [out], Remaining());
            outs := outs + [out];
        }
      }
    }

    /** A stream that is dropped before its end leaves no pending calls behind. */
    method Drop()
      modifies this`conversations
      ensures conversations == if done then old(conversations) else old(conversations) - {task}
    {
      if !done {
        conversations := conversations - {task};
      }
    }
  }

  lemma FirstThenRest(queue: seq<Out>, rest: seq<Out>)
    requires queue != []
    ensures queue + rest == [queue[0]] + (queue[1..] + rest)
  {}

  lemma EndIsLast<A>(r: Reaction<A>, start: nat)
    ensures r.end.Some? ==> OutsOf(r, start) + [] == OutsOf(r, start) != []
                            && OutsOf(r, start)[|OutsOf(r, start)| - 1] == EndOut(r.end.value)
  {}

  /** Either the decoder has a message ready, or what it holds is only what it will hold on to. */
  lemma PendingByMessage<A>(p: Protocol<A>, utf8: Bytes -> bool, acc: A, start: nat, f: Fields, buffer: Bytes,
                            body: seq<BodyItem>, flushed: bool)
    requires flushed ==> f == NO_FIELDS && buffer == []
    ensures var (item, g, left) := NextOf(utf8, f, buffer);
            && (item.Some? ==>
                  var r := ReactTo(p, acc, item.value);
                  Pending(p, utf8, acc, start, f, buffer, body, flushed) ==
                  OutsOf(r, start) + if r.end.Some? then []
                                     else Pending(p, utf8, r.acc, SequenceAfter(r, start), g, left, body, flushed))
            && (item.None? ==> Pending(p, utf8, acc, start, f, buffer, body, flushed) ==
                                 Pending(p, utf8, acc, start, g, left, body, flushed))
  {
    var (item, g, left) := NextOf(utf8, f, buffer);
    if item.None? {
      NothingReady(p, utf8, acc, start, f, buffer, body, flushed);
    }
  }

  lemma NothingReady<A>(p: Protocol<A>, utf8: Bytes -> bool, acc: A, start: nat, f: Fields, buffer: Bytes,
                        body: seq<BodyItem>, flushed: bool)
    requires NextOf(utf8, f, buffer).0.None?
    ensures var (_, g, left) := NextOf(utf8, f, buffer);
            Pending(p, utf8, acc, start, f, buffer, body, flushed) ==
                Pending(p, utf8, acc, start, g, left, body, flushed)
  {}

  lemma NumberedSnoc(deltas: seq<(DeltaKind, string)>, i: nat, start: nat)
    requires i < |deltas|
    ensures var before := Numbered(deltas[..i], start);
            var sequence := SaturatingAdd32(start, |before|);
            && Numbered(deltas[i..i + 1], sequence) ==
               (if deltas[i].1 == "" then [] else [Success(DeltaEvent(sequence, deltas[i].0, deltas[i].1))])
            && Numbered(deltas[..i + 1], start) == before + Numbered(deltas[i..i + 1], sequence)
  {
    assert deltas[..i + 1][..i] == deltas[..i];
    assert deltas[i..i + 1] == [deltas[i]] && [deltas[i]][..0] == [];
  }

  // --- Chunking does not matter -----------------------------------------------------------------------

  /** What a sequence of decoded items amounts to. */
  function OutputsOf<A>(p: Protocol<A>, acc: A, start: nat, items: seq<Item>): seq<Out>
    decreases |items|
  {
    if items == [] then [FinalOut(p, acc)]
    else
      var r := ReactTo(p, acc, items[0]);
      OutsOf(r, start) + if r.end.Some? then [] else OutputsOf(p, r.acc, SequenceAfter(r, start), items[1..])
  }

  function AsBody(chunks: seq<Bytes>): (r: seq<BodyItem>)
    ensures |r| == |chunks| && forall i :: 0 <= i < |r| ==> r[i] == Chunk(chunks[i])
  {
    seq(|chunks|, i requires 0 <= i < |chunks| => Chunk(chunks[i]))
  }

  lemma {:induction false} PendingIsOutputs<A>(p: Protocol<A>, utf8: Bytes -> bool, acc: A, start: nat, f: Fields,
                                               buffer: Bytes, chunks: seq<Bytes>)
    requires FitsFrom(Tail(buffer), chunks)
    ensures Pending(p, utf8, acc, start, f, buffer, AsBody(chunks), false) ==
              OutputsOf(p, acc, start, Decode(utf8, f, buffer + Concat(chunks)))
    decreases |chunks|, |buffer|
  {
    var (item, g, left) := NextOf(utf8, f, buffer);
    if item.Some? {
      var r := ReactTo(p, acc, item.value);
      if r.end.None? {
        PendingIsOutputs(p, utf8, r.acc, SequenceAfter(r, start), g, left, chunks);
      }
      OutputsByMessage(p, utf8, acc, start, f, buffer, chunks);
    } else {
      if chunks != [] {
        PendingIsOutputs(p, utf8, acc, start, g, left + chunks[0], chunks[1..]);
      }
      OutputsByChunk(p, utf8, acc, start, f, buffer, chunks);
    }
  }

  /** The streamed and the whole-input view agree. */
  ghost predicate Agree<A>(p: Protocol<A>, utf8: Bytes -> bool, acc: A, start: nat, f: Fields, buffer: Bytes,
                           chunks: seq<Bytes>)
  {
    Pending(p, utf8, acc, start, f, buffer, AsBody(chunks), false) ==
        OutputsOf(p, acc, start, Decode(utf8, f, buffer + Concat(chunks)))
  }

  lemma OutputsByMessage<A>(p: Protocol<A>, utf8: Bytes -> bool, acc: A, start: nat, f: Fields, buffer: Bytes,
                            chunks: seq<Bytes>)
    requires NextOf(utf8, f, buffer).0.Some?
    requires var (item, g, left) := NextOf(utf8, f, buffer);
             var r := ReactTo(p, acc, item.value);
             r.end.None? ==> Agree(p, utf8, r.acc, SequenceAfter(r, start), g, left, chunks)
    ensures Agree(p, utf8, acc, start, f, buffer, chunks)
  {
    var (item, g, left) := NextOf(utf8, f, buffer);
    NextIsFirst(utf8, f, buffer, Concat(chunks));
    OutputsFirst(p, acc, start, item.value, Decode(utf8, g, left + Concat(chunks)));
    PendingByMessage(p, utf8, acc, start, f, buffer, AsBody(chunks), false);
  }

  lemma OutputsByChunk<A>(p: Protocol<A>, utf8: Bytes -> bool, acc: A, start: nat, f: Fields, buffer: Bytes,
                          chunks: seq<Bytes>)
    requires NextOf(utf8, f, buffer).0.None? && FitsFrom(Tail(buffer), chunks)
    requires var (_, g, left) := NextOf(utf8, f, buffer);
             chunks != [] ==> Agree(p, utf8, acc, start, g, left + chunks[0], chunks[1..])
    ensures Agree(p, utf8, acc, start, f, buffer, chunks)
  {
    var (_, g, left) := NextOf(utf8, f, buffer);
    NextIsFirst(utf8, f, buffer, Concat(chunks));
    assert Decode(utf8, f, buffer + Concat(chunks)) == Decode(utf8, g, left + Concat(chunks));
    if chunks == [] {
      EndOfOutputs(p, utf8, acc, start, g, left);
      Joined(left, [], []);
    } else {
      BodyFirst(chunks);
      Joined(left, chunks[0], Concat(chunks[1..]));
      PendingByChunk(p, utf8, acc, start, f, buffer, AsBody(chunks));
    }
  }

  lemma PendingByChunk<A>(p: Protocol<A>, utf8: Bytes -> bool, acc: A, start: nat, f: Fields, buffer: Bytes,
                          body: seq<BodyItem>)
    requires NextOf(utf8, f, buffer).0.None? && body != [] && body[0].Chunk?
    requires |Tail(buffer)| + |body[0].bytes| <= MAX_SSE_EVENT_BYTES
    ensures var (_, g, left) := NextOf(utf8, f, buffer);
            Pending(p, utf8, acc, start, f, buffer, body, false) ==
                Pending(p, utf8, acc, start, g, left + body[0].bytes, body[1..], false)
  {}

  lemma OutputsFirst<A>(p: Protocol<A>, acc: A, start: nat, item: Item, items: seq<Item>)
    ensures var r := ReactTo(p, acc, item);
            OutputsOf(p, acc, start, [item] + items) ==
            OutsOf(r, start) + if r.end.Some? then [] else OutputsOf(p, r.acc, SequenceAfter(r, start), items)
  {}

  lemma BodyFirst(chunks: seq<Bytes>)
    requires chunks != []
    ensures AsBody(chunks)[0] == Chunk(chunks[0]) && AsBody(chunks)[1..] == AsBody(chunks[1..])
  {}

  lemma Joined(left: Bytes, chunk: Bytes, rest: Bytes)
    ensures left + (chunk + rest) == (left + chunk) + rest && (rest == [] ==> left + rest == left)
  {}

  lemma EndOfOutputs<A>(p: Protocol<A>, utf8: Bytes -> bool, acc: A, start: nat, f: Fields, left: Bytes)
    requires LF !in left
    ensures OutputsOf(p, acc, start, Decode(utf8, f, left)) ==
            match FinishItem(utf8, f, left).1
            case None => [FinalOut(p, acc)]
            case Some(last) =>
              var r := ReactTo(p, acc, last);
              OutsOf(r, start) + if r.end.Some? then [] else [FinalOut(p, r.acc)]
  {}

  /** The items of a stream depend on the bytes of its body alone, not on how they were cut. */
  lemma ChunkingIsInvisible<A>(p: Protocol<A>, utf8: Bytes -> bool, acc: A, one: seq<Bytes>, two: seq<Bytes>)
    requires Concat(one) == Concat(two) && FitsFrom([], one) && FitsFrom([], two)
    ensures Pending(p, utf8, acc, 0, NO_FIELDS, [], AsBody(one), false) ==
              Pending(p, utf8, acc, 0, NO_FIELDS, [], AsBody(two), false)
  {
    PendingIsOutputs(p, utf8, acc, 0, NO_FIELDS, [], one);
    PendingIsOutputs(p, utf8, acc, 0, NO_FIELDS, [], two);
  }
}
