/** The newline-delimited record stream between the model proxy and its client. */
module Ndjson {
  import opened Wrappers
  import opened Bytes
  import opened Seqs

  const MAX_PROXY_RECORD_BYTES: nat := 16 * 1024 * 1024

  datatype ProxyError = Unparsable | RecordTooLarge | Unavailable | IncompleteRecord | Cancelled

  /** What one wait for the network resolves to; the list ends where the body ends. */
  datatype Arrival = Chunk(bytes: Bytes) | ReadFailed | CancelRequested

  datatype Item<R> = Delivered(record: R) | Broken(error: ProxyError)

  /** How a stream ends: cleanly, or on an error that every further call repeats. */
  datatype End = Ended | Stuck(error: ProxyError)

  datatype Outcome<R> = Outcome(items: seq<Item<R>>, end: End)

  function Cons<R>(item: Item<R>, rest: Outcome<R>): Outcome<R> {
    Outcome([item] + rest.items, rest.end)
  }

  function ParseLine<R>(dec: Bytes -> Option<R>, line: Bytes): Item<R> {
    match dec(line) case Some(record) => Delivered(record) case None => Broken(Unparsable)
  }

  /** Everything the client will still get from what it has buffered and what will arrive. */
  function Stream<R>(dec: Bytes -> Option<R>, buffer: Bytes, arrivals: seq<Arrival>): Outcome<R>
    decreases |arrivals|, |buffer|
  {
    match IndexOf(buffer, LF)
    case Some(n) =>
      var line := StripCr(buffer[..n]);
      var rest := Stream(dec, buffer[n + 1..], arrivals);
      if line == [] then rest else Cons(ParseLine(dec, line), rest)
    case None =>
      if |buffer| > MAX_PROXY_RECORD_BYTES then Outcome([], Stuck(RecordTooLarge))
      else if arrivals == [] then Outcome([], if buffer == [] then Ended else Stuck(IncompleteRecord))
      else
        match arrivals[0]
        case Chunk(bytes) => Stream(dec, buffer + bytes, arrivals[1..])
        case ReadFailed => Cons(Broken(Unavailable), Stream(dec, buffer, arrivals[1..]))
        case CancelRequested => Cons(Broken(Cancelled), Stream(dec, buffer, arrivals[1..]))
  }

  /** The same for a body that is there all at once. */
  function Lines<R>(dec: Bytes -> Option<R>, input: Bytes): Outcome<R>
    decreases |input|
  {
    match IndexOf(input, LF)
    case None => Outcome([], if input == [] then Ended else Stuck(IncompleteRecord))
    case Some(n) =>
      var line := StripCr(input[..n]);
      var rest := Lines(dec, input[n + 1..]);
      if line == [] then rest else Cons(ParseLine(dec, line), rest)
  }

  function Chunks(bytes: seq<Bytes>): seq<Arrival> {
    if bytes == [] then [] else [Chunk(bytes[0])] + Chunks(bytes[1..])
  }

  /** At every wait the buffered partial record is within the limit. */
  ghost predicate PartialsFit(buffer: Bytes, chunks: seq<Bytes>) {
    forall i :: 0 <= i <= |chunks| ==> PartialFits(buffer, chunks, i)
  }

  ghost predicate PartialFits(buffer: Bytes, chunks: seq<Bytes>, i: nat)
    requires i <= |chunks|
  {
    |Tail(buffer + Concat(chunks[..i]))| <= MAX_PROXY_RECORD_BYTES
  }

  /** A complete line ahead makes no difference to what is partial. */
  lemma PartialAfterLine(buffer: Bytes, chunks: seq<Bytes>, n: nat, left: Bytes, i: nat)
    requires IndexOf(buffer, LF) == Some(n) && left == buffer[n + 1..] && i <= |chunks|
    ensures PartialFits(buffer, chunks, i) <==> PartialFits(left, chunks, i)
  {
    var more := Concat(chunks[..i]);
    IndexInPrefix(buffer, more, LF);
    CutConcat(buffer, more, n);
  }

  lemma PartialsAfterLine(buffer: Bytes, chunks: seq<Bytes>, n: nat, left: Bytes)
    requires IndexOf(buffer, LF) == Some(n) && left == buffer[n + 1..]
    ensures PartialsFit(buffer, chunks) <==> PartialsFit(left, chunks)
  {
    forall i | 0 <= i <= |chunks|
      ensures PartialFits(buffer, chunks, i) <==> PartialFits(left, chunks, i)
    {
      PartialAfterLine(buffer, chunks, n, left, i);
    }
    if PartialsFit(left, chunks) {
      assert forall i :: 0 <= i <= |chunks| ==> PartialFits(left, chunks, i);
    }
  }

  lemma PartialsAfterChunk(buffer: Bytes, chunks: seq<Bytes>)
    requires LF !in buffer && chunks != [] && |buffer| <= MAX_PROXY_RECORD_BYTES
    ensures PartialsFit(buffer, chunks) <==> PartialsFit(buffer + chunks[0], chunks[1..])
  {
    assert buffer + Concat(chunks[..0]) == buffer;
    assert PartialFits(buffer, chunks, 0);
    forall i | 0 <= i < |chunks|
      ensures PartialFits(buffer, chunks, i + 1) <==> PartialFits(buffer + chunks[0], chunks[1..], i)
    {
      assert chunks[..i + 1][1..] == chunks[1..][..i];
      assert buffer + Concat(chunks[..i + 1]) == buffer + chunks[0] + Concat(chunks[1..][..i]);
    }
    if PartialsFit(buffer + chunks[0], chunks[1..]) {
      forall i | 0 <= i <= |chunks|
        ensures PartialFits(buffer, chunks, i)
      {
        assert i > 0 ==> PartialFits(buffer + chunks[0], chunks[1..], i - 1);
      }
    }
    if PartialsFit(buffer, chunks) {
      forall i | 0 <= i <= |chunks[1..]|
        ensures PartialFits(buffer + chunks[0], chunks[1..], i)
      {
        assert PartialFits(buffer, chunks, i + 1);
      }
    }
  }

  lemma CompleteLineComesFirst<R>(dec: Bytes -> Option<R>, buffer: Bytes, more: Bytes, n: nat)
    requires IndexOf(buffer, LF) == Some(n)
    ensures var line := StripCr(buffer[..n]);
            var rest := Lines(dec, buffer[n + 1..] + more);
            Lines(dec, buffer + more) == if line == [] then rest else Cons(ParseLine(dec, line), rest)
  {
    IndexInPrefix(buffer, more, LF);
    CutConcat(buffer, more, n);
    LinesAt(dec, buffer + more, n);
  }

  lemma LinesAt<R>(dec: Bytes -> Option<R>, input: Bytes, n: nat)
    requires IndexOf(input, LF) == Some(n)
    ensures var line := StripCr(input[..n]);
            var rest := Lines(dec, input[n + 1..]);
            Lines(dec, input) == if line == [] then rest else Cons(ParseLine(dec, line), rest)
  {}

  lemma CutConcat(buffer: Bytes, more: Bytes, n: nat)
    requires n < |buffer|
    ensures (buffer + more)[..n] == buffer[..n] && (buffer + more)[n + 1..] == buffer[n + 1..] + more
  {}

  /** Chunk boundaries matter exactly through the limit: while partial records fit, the outcome is
      that of the whole body; once one does not, the stream is stuck. */
  lemma {:induction false} CutsMatterOnlyThroughTheLimit<R>(dec: Bytes -> Option<R>, buffer: Bytes, chunks: seq<Bytes>)
    ensures PartialsFit(buffer, chunks) ==> Stream(dec, buffer, Chunks(chunks)) == Lines(dec, buffer + Concat(chunks))
    ensures !PartialsFit(buffer, chunks) ==> Stream(dec, buffer, Chunks(chunks)).end == Stuck(RecordTooLarge)
    decreases |chunks|, |buffer|
  {
    match IndexOf(buffer, LF) {
      case Some(n) =>
        var left := buffer[n + 1..];
        CompleteLineComesFirst(dec, buffer, Concat(chunks), n);
        PartialsAfterLine(buffer, chunks, n, left);
        CutsMatterOnlyThroughTheLimit(dec, left, chunks);
      case None =>
        assert buffer + Concat(chunks[..0]) == buffer;
        if |buffer| > MAX_PROXY_RECORD_BYTES {
          assert !PartialFits(buffer, chunks, 0);
        } else if chunks == [] {
          assert PartialFits(buffer, chunks, 0) && buffer + Concat(chunks) == buffer;
        } else {
          PartialsAfterChunk(buffer, chunks);
          Regroup(buffer, chunks[0], Concat(chunks[1..]));
          assert Chunks(chunks)[1..] == Chunks(chunks[1..]);
          CutsMatterOnlyThroughTheLimit(dec, buffer + chunks[0], chunks[1..]);
        }
    }
  }

  // --- The server side ----------------------------------------------------------------------------

  function Encode<R>(enc: R -> Bytes, records: seq<R>): Bytes {
    if records == [] then [] else enc(records[0]) + [LF] + Encode(enc, records[1..])
  }

  function DeliverAll<R>(records: seq<R>): seq<Item<R>> {
    if records == [] then [] else [Delivered(records[0])] + DeliverAll(records[1..])
  }

  /** A codec that fits one record to a line and reads it back. */
  ghost predicate LineCodec<R(!new)>(enc: R -> Bytes, dec: Bytes -> Option<R>) {
    forall r :: FitsLine(enc(r)) && dec(enc(r)) == Some(r)
  }

  ghost predicate FitsLine(line: Bytes) {
    line != [] && LF !in line && line[|line| - 1] != CR
  }

  lemma {:induction false} EncodedLinesDecode<R(!new)>(enc: R -> Bytes, dec: Bytes -> Option<R>, records: seq<R>)
    requires LineCodec(enc, dec)
    ensures Lines(dec, Encode(enc, records)) == Outcome(DeliverAll(records), Ended)
  {
    if records != [] {
      var line := enc(records[0]);
      var input := Encode(enc, records);
      assert FitsLine(line) && dec(line) == Some(records[0]);
      assert input[..|line|] == line && input[|line| + 1..] == Encode(enc, records[1..]);
      FirstIndex(input, LF, |line|);
      EncodedLinesDecode(enc, dec, records[1..]);
    }
  }

  /** The client gets exactly the records the server sent, in order, and then a clean end: precisely
      when no wait finds more than the limit buffered. */
  lemma RoundTrip<R(!new)>(enc: R -> Bytes, dec: Bytes -> Option<R>, records: seq<R>, chunks: seq<Bytes>)
    requires LineCodec(enc, dec) && Concat(chunks) == Encode(enc, records)
    ensures Stream(dec, [], Chunks(chunks)) == Outcome(DeliverAll(records), Ended) <==> PartialsFit([], chunks)
  {
    assert [] + Concat(chunks) == Concat(chunks);
    CutsMatterOnlyThroughTheLimit(dec, [], chunks);
    EncodedLinesDecode(enc, dec, records);
  }

  class ProxyResponseStream<R> {
    const dec: Bytes -> Option<R>
    var buffer: Bytes
    var arrivals: seq<Arrival>

    ghost function Future(): Outcome<R>
      reads this
    {
      Stream(dec, buffer, arrivals)
    }

    constructor (dec: Bytes -> Option<R>, arrivals: seq<Arrival>)
      ensures this.dec == dec && buffer == [] && this.arrivals == arrivals
    {
      this.dec, this.arrivals := dec, arrivals;
      buffer := [];
    }

    /** Peels one item off the future. The stream is not fused: a record over the limit and a
        truncated body leave the state as it is, so the next call reports them again. */
    method NextItem() returns (r: Option<Item<R>>)
      modifies this
      ensures r.None? ==> old(Future()) == Outcome([], Ended)
      ensures r == Some(Broken(RecordTooLarge)) || r == Some(Broken(IncompleteRecord)) ==>
                old(Future()) == Outcome([], Stuck(r.value.error)) == Future()
      ensures r.Some? && r.value != Broken(RecordTooLarge) && r.value != Broken(IncompleteRecord) ==>
                && old(Future()) == Cons(r.value, Future())
                && (|arrivals| < old(|arrivals|) || (arrivals == old(arrivals) && |buffer| < old(|buffer|)))
    {
      ghost var future := Future();
      while true
        invariant Future() == future
        invariant |arrivals| < old(|arrivals|) || (arrivals == old(arrivals) && |buffer| <= old(|buffer|))
        decreases |arrivals|, |buffer|
      {
        var position := IndexOf(buffer, LF);
        if position.Some? {
          var line := StripCr(buffer[..position.value]);
          buffer := buffer[position.value + 1..];
          if line == [] {
            continue;
          }
          match dec(line)
          case Some(record) => return Some(Delivered(record));
          case None => return Some(Broken(Unparsable));
        }
        if |buffer| > MAX_PROXY_RECORD_BYTES {
          return Some(Broken(RecordTooLarge));
        }
        if arrivals == [] {
          if buffer == [] {
            return None;
          }
          return Some(Broken(IncompleteRecord));
        }
        var next := arrivals[0];
        arrivals := arrivals[1..];
        match next
        case Chunk(bytes) => buffer := buffer + bytes;
        case ReadFailed => return Some(Broken(Unavailable));
        case CancelRequested => return Some(Broken(Cancelled));
      }
    }

    /** Reads on until the stream ends or is stuck. */
    method ReadToEnd() returns (items: seq<Item<R>>, end: End)
      modifies this
      ensures Outcome(items, end) == old(Future())
    {
      ghost var future := Future();
      items := [];
      while true
        invariant future == Outcome(items + Future().items, Future().end)
        decreases |arrivals|, |buffer|
      {
        ghost var before := items;
        var next := NextItem();
        match next
        case None => return items, Ended;
        case Some(Broken(RecordTooLarge)) => return items, Stuck(RecordTooLarge);
        case Some(Broken(IncompleteRecord)) => return items, Stuck(IncompleteRecord);
        case Some(item) =>
          Regroup(items, [item], Future().items);
          items := items + [item];
      }
    }
  }
}
