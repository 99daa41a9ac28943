/** The incremental server-sent-events decoder of the provider adapter. */
module Sse {
  import opened Wrappers
  import opened Bytes
  import opened Seqs

  const MAX_SSE_EVENT_BYTES: nat := 4 * 1024 * 1024

  const EVENT_FIELD: Bytes := [101, 118, 101, 110, 116]
  const DATA_FIELD: Bytes := [100, 97, 116, 97]

  datatype SseMessage = SseMessage(event: Option<Bytes>, data: Bytes)

  datatype SseError = EventTooLarge | NotUtf8

  type Item = Result<SseMessage, SseError>

  /** The fields of the event under construction. */
  datatype Fields = Fields(event: Option<Bytes>, data: Bytes)

  const NO_FIELDS := Fields(None, [])

  function ToSeq<T>(o: Option<T>): seq<T> {
    if o.Some? then [o.value] else []
  }

  /** Dispatches what has been collected; an event with a name but no data is dispatched too. */
  function TakeMessage(f: Fields): (Fields, Option<Item>) {
    if f.event.None? && f.data == [] then (f, None)
    else (NO_FIELDS, Some(Success(SseMessage(f.event, f.data))))
  }

  /** Splits a line at its first colon and drops one space after it. */
  function SplitField(line: Bytes): (Bytes, Bytes) {
    match IndexOf(line, COLON)
    case None => (line, [])
    case Some(colon) =>
      var value := line[colon + 1..];
      (line[..colon], if value != [] && value[0] == SPACE then value[1..] else value)
  }

  /** Data lines are joined by newlines, except that no separator follows empty data. */
  function AppendData(data: Bytes, value: Bytes): Bytes {
    if data == [] then value else data + [LF] + value
  }

  function ProcessLine(utf8: Bytes -> bool, f: Fields, line: Bytes): (Fields, Option<Item>) {
    if line == [] then TakeMessage(f)
    else if line[0] == COLON then (f, None)
    else
      var (field, value) := SplitField(line);
      if field == EVENT_FIELD then
        if utf8(value) then (f.(event := Some(value)), None) else (f, Some(Failure(NotUtf8)))
      else if field == DATA_FIELD then
        if !utf8(value) then (f, Some(Failure(NotUtf8)))
        else if |f.data| + |value| + 1 > MAX_SSE_EVENT_BYTES then (f, Some(Failure(EventTooLarge)))
        else (f.(data := AppendData(f.data, value)), None)
      else (f, None)
  }

  /** The end of input: an unterminated line still counts, and whatever was collected is flushed
      unless that line failed. */
  function FinishItem(utf8: Bytes -> bool, f: Fields, rest: Bytes): (Fields, Option<Item>) {
    if rest == [] then TakeMessage(f)
    else
      var (g, item) := ProcessLine(utf8, f, StripCr(rest));
      if item.Some? then (g, item) else TakeMessage(g)
  }

  /** The specification: the whole input at once, line by line. */
  function Decode(utf8: Bytes -> bool, f: Fields, input: Bytes): seq<Item>
    decreases |input|
  {
    match IndexOf(input, LF)
    case None => ToSeq(FinishItem(utf8, f, input).1)
    case Some(n) =>
      var (g, item) := ProcessLine(utf8, f, StripCr(input[..n]));
      ToSeq(item) + Decode(utf8, g, input[n + 1..])
  }

  /** The next message among the complete lines of `buffer`, with what is left behind. */
  function NextOf(utf8: Bytes -> bool, f: Fields, buffer: Bytes): (r: (Option<Item>, Fields, Bytes))
    ensures r.0.Some? ==> |r.2| < |buffer|
    ensures r.0.None? ==> LF !in r.2
    ensures |r.2| <= |buffer| && Tail(r.2) == Tail(buffer)
    decreases |buffer|
  {
    match IndexOf(buffer, LF)
    case None => (None, f, buffer)
    case Some(n) =>
      var (g, item) := ProcessLine(utf8, f, StripCr(buffer[..n]));
      if item.Some? then (item, g, buffer[n + 1..]) else NextOf(utf8, g, buffer[n + 1..])
  }

  /** Taking the next message early, before the rest of the input has arrived, changes nothing. */
  lemma {:induction false} NextIsFirst(utf8: Bytes -> bool, f: Fields, buffer: Bytes, rest: Bytes)
    ensures var (item, g, left) := NextOf(utf8, f, buffer);
            Decode(utf8, f, buffer + rest) == ToSeq(item) + Decode(utf8, g, left + rest)
    decreases |buffer|
  {
    match IndexOf(buffer, LF) {
      case None =>
      case Some(n) =>
        IndexInPrefix(buffer, rest, LF);
        assert (buffer + rest)[..n] == buffer[..n];
        assert (buffer + rest)[n + 1..] == buffer[n + 1..] + rest;
        NextIsFirst(utf8, ProcessLine(utf8, f, StripCr(buffer[..n])).0, buffer[n + 1..], rest);
    }
  }

  /** No push meets the size limit, starting with the partial line `tail`: what is kept from before plus
      the new chunk always fits. */
  predicate FitsFrom(tail: Bytes, chunks: seq<Bytes>)
    decreases |chunks|
  {
    chunks == [] || (|tail| + |chunks[0]| <= MAX_SSE_EVENT_BYTES && FitsFrom(Tail(tail + chunks[0]), chunks[1..]))
  }

  lemma FitsNext(tail: Bytes, chunks: seq<Bytes>, i: nat)
    requires i < |chunks|
    ensures FitsFrom(tail, chunks[i..]) <==>
            |tail| + |chunks[i]| <= MAX_SSE_EVENT_BYTES && FitsFrom(Tail(tail + chunks[i]), chunks[i + 1..])
    ensures Concat(chunks[i..]) == chunks[i] + Concat(chunks[i + 1..])
  {
    assert chunks[i..][1..] == chunks[i + 1..];
  }

  lemma AllOf(chunks: seq<Bytes>)
    ensures chunks[0..] == chunks && chunks[|chunks|..] == []
  {}

  /** Push `i` fits: what the bytes so far leave as a partial line, plus the chunk, is within the limit. */
  ghost predicate PushFits(before: Bytes, chunks: seq<Bytes>, i: nat)
    requires i < |chunks|
  {
    |Tail(before + Concat(chunks[..i]))| + |chunks[i]| <= MAX_SSE_EVENT_BYTES
  }

  lemma PushFitsNext(before: Bytes, chunks: seq<Bytes>, i: nat)
    requires i + 1 < |chunks|
    ensures PushFits(before, chunks, i + 1) <==> PushFits(before + chunks[0], chunks[1..], i)
  {
    assert chunks[..i + 1][1..] == chunks[1..][..i];
    Regroup(before, chunks[0], Concat(chunks[1..][..i]));
  }

  /** The limit in terms of the bytes alone: every push fits. */
  lemma {:induction false} FitsMeansEveryPushFits(tail: Bytes, before: Bytes, chunks: seq<Bytes>)
    requires tail == Tail(before)
    ensures FitsFrom(tail, chunks) <==> forall i :: 0 <= i < |chunks| ==> PushFits(before, chunks, i)
    decreases |chunks|
  {
    if chunks != [] {
      assert before + Concat(chunks[..0]) == before;
      assert PushFits(before, chunks, 0) <==> |tail| + |chunks[0]| <= MAX_SSE_EVENT_BYTES;
      TailOfConcat(before, chunks[0]);
      FitsMeansEveryPushFits(Tail(tail + chunks[0]), before + chunks[0], chunks[1..]);
      forall i | 0 <= i < |chunks| - 1
        ensures PushFits(before, chunks, i + 1) <==> PushFits(before + chunks[0], chunks[1..], i)
      {
        PushFitsNext(before, chunks, i);
      }
      if forall i :: 0 <= i < |chunks[1..]| ==> PushFits(before + chunks[0], chunks[1..], i) {
        forall i | 0 < i < |chunks|
          ensures PushFits(before, chunks, i)
        {
          assert PushFits(before + chunks[0], chunks[1..], i - 1);
        }
      }
      if forall i :: 0 <= i < |chunks| ==> PushFits(before, chunks, i) {
        forall i | 0 <= i < |chunks[1..]|
          ensures PushFits(before + chunks[0], chunks[1..], i)
        {
          assert PushFits(before, chunks, i + 1);
        }
      }
    }
  }

  class SseDecoder {
    const utf8: Bytes -> bool
    var buffer: Bytes
    var event: Option<Bytes>
    var data: Bytes

    function Collected(): Fields
      reads this
    {
      Fields(event, data)
    }

    constructor (utf8: Bytes -> bool)
      ensures this.utf8 == utf8 && buffer == [] && Collected() == NO_FIELDS
    {
      this.utf8 := utf8;
      buffer, event, data := [], None, [];
    }

    method Push(bytes: Bytes) returns (r: Result<(), SseError>)
      modifies this`buffer
      ensures r.Success? <==> |old(buffer)| + |bytes| <= MAX_SSE_EVENT_BYTES
      ensures buffer == if r.Success? then old(buffer) + bytes else old(buffer)
    {
      if |buffer| + |bytes| > MAX_SSE_EVENT_BYTES {
        return Failure(EventTooLarge);
      }
      buffer := buffer + bytes;
      r := Success(());
    }

    method TakeCollected() returns (r: Option<SseMessage>)
      modifies this`event, this`data
      ensures (Collected(), if r.Some? then Some(Success(r.value)) else None) == TakeMessage(old(Collected()))
    {
      if event.None? && data == [] {
        return None;
      }
      r := Some(SseMessage(event, data));
      event, data := None, [];
    }

    method ProcessOne(line: Bytes) returns (r: Result<Option<SseMessage>, SseError>)
      modifies this`event, this`data
      ensures var (f, item) := ProcessLine(utf8, old(Collected()), line);
              && Collected() == f
              && item == match r
                         case Success(None) => None
                         case Success(Some(m)) => Some(Success(m))
                         case Failure(e) => Some(Failure(e))
    {
      if line == [] {
        var message := TakeCollected();
        return Success(message);
      }
      if line[0] == COLON {
        return Success(None);
      }
      var (field, value) := SplitField(line);
      if field == EVENT_FIELD {
        if !utf8(value) {
          return Failure(NotUtf8);
        }
        event := Some(value);
      } else if field == DATA_FIELD {
        if !utf8(value) {
          return Failure(NotUtf8);
        }
        if |data| + |value| + 1 > MAX_SSE_EVENT_BYTES {
          return Failure(EventTooLarge);
        }
        if data != [] {
          data := data + [LF];
        }
        data := data + value;
      }
      r := Success(None);
    }

    /** Consumes complete lines until one of them yields a message or an error. */
    method NextMessage() returns (r: Option<Item>)
      modifies this
      ensures (r, Collected(), buffer) == NextOf(utf8, old(Collected()), old(buffer))
    {
      ghost var f0, b0 := Collected(), buffer;
      while true
        invariant NextOf(utf8, f0, b0) == NextOf(utf8, Collected(), buffer)
        decreases |buffer|
      {
        var newline := IndexOf(buffer, LF);
        if newline.None? {
          return None;
        }
        var line := buffer[..newline.value];
        buffer := buffer[newline.value + 1..];
        var processed := ProcessOne(StripCr(line));
        match processed
        case Success(None) =>
        case Success(Some(message)) => return Some(Success(message));
        case Failure(error) => return Some(Failure(error));
      }
    }

    /** Processes an unterminated last line and flushes. The buffer is always empty afterwards;
        collected fields survive only a failure. */
    method Finish() returns (r: Result<Option<SseMessage>, SseError>)
      modifies this
      ensures var (f, item) := FinishItem(utf8, old(Collected()), old(buffer));
              && Collected() == f
              && item == match r
                         case Success(None) => None
                         case Success(Some(m)) => Some(Success(m))
                         case Failure(e) => Some(Failure(e))
      ensures buffer == [] && (r.Success? ==> Collected() == NO_FIELDS)
    {
      if buffer != [] {
        var line := StripCr(buffer);
        buffer := [];
        var processed := ProcessOne(line);
        match processed
        case Success(None) =>
        case Success(Some(message)) => return Success(Some(message));
        case Failure(error) => return Failure(error);
      }
      var message := TakeCollected();
      r := Success(message);
    }

    /** Takes messages until no complete line is left; `rest` is what has not arrived yet. */
    method Drain(ghost rest: Bytes) returns (items: seq<Item>)
      modifies this
      ensures buffer == Tail(old(buffer))
      ensures Decode(utf8, old(Collected()), old(buffer) + rest) == items + Decode(utf8, Collected(), buffer + rest)
    {
      ghost var whole := Decode(utf8, Collected(), buffer + rest);
      items := [];
      var more := true;
      while more
        invariant Tail(buffer) == Tail(old(buffer))
        invariant !more ==> buffer == Tail(buffer)
        invariant whole == items + Decode(utf8, Collected(), buffer + rest)
        decreases |buffer|, more
      {
        NextIsFirst(utf8, Collected(), buffer, rest);
        var next := NextMessage();
        Regroup(items, ToSeq(next), Decode(utf8, Collected(), buffer + rest));
        items := items + ToSeq(next);
        more := next.Some?;
      }
    }

    /** Pushes one chunk and drains it, unless it does not fit. */
    method Feed(chunk: Bytes, ghost rest: Bytes) returns (items: seq<Item>, fits: bool)
      modifies this
      ensures fits <==> |old(buffer)| + |chunk| <= MAX_SSE_EVENT_BYTES
      ensures fits ==>
                && buffer == Tail(old(buffer) + chunk)
                && Decode(utf8, old(Collected()), old(buffer) + (chunk + rest)) ==
                   items + Decode(utf8, Collected(), buffer + rest)
    {
      assert buffer + (chunk + rest) == buffer + chunk + rest;
      var pushed := Push(chunk);
      if pushed.Failure? {
        return [], false;
      }
      items := Drain(rest);
      fits := true;
    }

    /** Finishes the body: what an unterminated last line still yields. */
    method Flush() returns (items: seq<Item>)
      requires LF !in buffer
      modifies this
      ensures buffer == [] && items == Decode(utf8, old(Collected()), old(buffer))
    {
      var last := Finish();
      match last
      case Success(None) => items := [];
      case Success(Some(message)) => items := [Success(message)];
      case Failure(error) => items := [Failure(error)];
    }

    /** Drives the decoder the way the response stream does: push a chunk, drain it, and finish at
        the end of the body. The outcome depends on the bytes alone, not on how they were cut. */
    method DecodeAll(chunks: seq<Bytes>) returns (items: seq<Item>, overflow: bool)
      requires buffer == [] && Collected() == NO_FIELDS
      modifies this
      ensures overflow <==> !FitsFrom([], chunks)
      ensures !overflow ==> items == Decode(utf8, NO_FIELDS, Concat(chunks)) && buffer == []
    {
      ghost var todo := Concat(chunks);
      ghost var whole := Decode(utf8, NO_FIELDS, todo);
      items := [];
      AppendEmpty(todo);
      AppendEmpty(whole);
      AllOf(chunks);
      for i := 0 to |chunks|
        invariant LF !in buffer && todo == Concat(chunks[i..])
        invariant whole == items + Decode(utf8, Collected(), buffer + todo)
        invariant FitsFrom([], chunks) <==> FitsFrom(buffer, chunks[i..])
      {
        ghost var rest := Concat(chunks[i + 1..]);
        FitsNext(buffer, chunks, i);
        var more, fits := Feed(chunks[i], rest);
        if !fits {
          return items, true;
        }
        todo := rest;
        Regroup(items, more, Decode(utf8, Collected(), buffer + todo));
        items := items + more;
      }
      AppendEmpty(buffer);
      var flushed := Flush();
      items := items + flushed;
      overflow := false;
    }
  }

  // --- What a well-formed producer gets back -----------------------------------------------------

  function DataLines(lines: seq<Bytes>): Bytes {
    if lines == [] then [] else DATA_FIELD + [COLON, SPACE] + lines[0] + [LF] + DataLines(lines[1..])
  }

  /** One event as a producer writes it: a name, data lines, and the blank line that dispatches. */
  function Encode(name: Bytes, lines: seq<Bytes>): Bytes {
    EVENT_FIELD + [COLON, SPACE] + name + [LF] + DataLines(lines) + [LF]
  }

  function Join(lines: seq<Bytes>): Bytes {
    if lines == [] then [] else if |lines| == 1 then lines[0] else lines[0] + [LF] + Join(lines[1..])
  }

  function Collect(data: Bytes, lines: seq<Bytes>): Bytes
    decreases |lines|
  {
    if lines == [] then data else Collect(AppendData(data, lines[0]), lines[1..])
  }

  /** A value that survives on a line: no newline inside, no carriage return at the end, valid text. */
  ghost predicate LineSafe(utf8: Bytes -> bool, value: Bytes) {
    LF !in value && (value == [] || value[|value| - 1] != CR) && utf8(value)
  }

  lemma {:induction false} CollectIsJoin(data: Bytes, lines: seq<Bytes>)
    requires data != [] && lines != []
    ensures Collect(data, lines) == data + [LF] + Join(lines)
    decreases |lines|
  {
    if |lines| == 1 {
      assert lines[1..] == [];
    } else {
      CollectIsJoin(AppendData(data, lines[0]), lines[1..]);
      assert data + [LF] + lines[0] + [LF] + Join(lines[1..]) == data + [LF] + (lines[0] + [LF] + Join(lines[1..]));
    }
  }

  lemma {:induction false} CollectNeverExceedsJoin(lines: seq<Bytes>)
    ensures |Collect([], lines)| <= |Join(lines)|
    decreases |lines|
  {
    if |lines| == 1 {
      assert lines[1..] == [];
    } else if |lines| > 1 {
      if lines[0] == [] {
        CollectNeverExceedsJoin(lines[1..]);
      } else {
        CollectIsJoin(lines[0], lines[1..]);
      }
    }
  }

  /** Exactly when the collected data is the newline-joined text: the separator after an empty first
      line is dropped, so several lines of which the first is empty come back shorter. */
  lemma {:induction false} JoinIsKeptUnlessFirstLineEmpty(lines: seq<Bytes>)
    ensures Collect([], lines) == Join(lines) <==> |lines| <= 1 || lines[0] != []
  {
    if |lines| == 1 {
      assert lines[1..] == [];
    } else if |lines| > 1 {
      if lines[0] == [] {
        CollectNeverExceedsJoin(lines[1..]);
        assert |Join(lines)| == 1 + |Join(lines[1..])|;
      } else {
        CollectIsJoin(lines[0], lines[1..]);
      }
    }
  }

  lemma FieldSplits(field: Bytes, value: Bytes)
    requires COLON !in field
    ensures SplitField(field + [COLON, SPACE] + value) == (field, value)
  {
    var line := field + [COLON, SPACE] + value;
    FirstIndex(line, COLON, |field|);
    assert line[..|field|] == field;
    assert line[|field| + 1..] == [SPACE] + value;
    assert ([SPACE] + value)[1..] == value;
  }

  lemma FirstLine(utf8: Bytes -> bool, f: Fields, line: Bytes, rest: Bytes)
    requires LF !in line
    ensures var (g, item) := ProcessLine(utf8, f, StripCr(line));
            Decode(utf8, f, line + [LF] + rest) == ToSeq(item) + Decode(utf8, g, rest)
  {
    var input := line + [LF] + rest;
    FirstIndex(input, LF, |line|);
    assert input[..|line|] == line && input[|line| + 1..] == rest;
  }

  /** What a line `field: value` does to the fields. */
  function SetField(f: Fields, field: Bytes, value: Bytes): Fields {
    if field == EVENT_FIELD then f.(event := Some(value)) else f.(data := AppendData(f.data, value))
  }

  lemma FieldIsSet(utf8: Bytes -> bool, f: Fields, field: Bytes, value: Bytes)
    requires field == EVENT_FIELD || field == DATA_FIELD
    requires LineSafe(utf8, value) && |f.data| + |value| + 1 <= MAX_SSE_EVENT_BYTES
    ensures ProcessLine(utf8, f, field + [COLON, SPACE] + value) == (SetField(f, field, value), None)
  {
    FieldSplits(field, value);
    assert (field + [COLON, SPACE] + value)[0] == field[0];
  }

  lemma LineIsKept(utf8: Bytes -> bool, field: Bytes, value: Bytes)
    requires field == EVENT_FIELD || field == DATA_FIELD
    requires LineSafe(utf8, value)
    ensures var line := field + [COLON, SPACE] + value; LF !in line && StripCr(line) == line
  {}

  /** A line `field: value` ahead of any input is processed as exactly that field and value. */
  lemma FieldLine(utf8: Bytes -> bool, f: Fields, field: Bytes, value: Bytes, rest: Bytes)
    requires field == EVENT_FIELD || field == DATA_FIELD
    requires LineSafe(utf8, value) && |f.data| + |value| + 1 <= MAX_SSE_EVENT_BYTES
    ensures Decode(utf8, f, field + [COLON, SPACE] + value + [LF] + rest) ==
            Decode(utf8, SetField(f, field, value), rest)
  {
    var line := field + [COLON, SPACE] + value;
    LineIsKept(utf8, field, value);
    FirstLine(utf8, f, line, rest);
    FieldIsSet(utf8, f, field, value);
    var later := Decode(utf8, SetField(f, field, value), rest);
    assert [] + later == later;
  }

  lemma {:induction false} DataLinesCollect(utf8: Bytes -> bool, f: Fields, lines: seq<Bytes>, rest: Bytes)
    requires forall i :: 0 <= i < |lines| ==> LineSafe(utf8, lines[i])
    requires |f.data| + 1 + |Join(lines)| + 1 <= MAX_SSE_EVENT_BYTES
    ensures Decode(utf8, f, DataLines(lines) + rest) == Decode(utf8, f.(data := Collect(f.data, lines)), rest)
    decreases |lines|
  {
    if lines == [] {
      assert DataLines(lines) + rest == rest;
    } else {
      var g := f.(data := AppendData(f.data, lines[0]));
      assert DataLines(lines) + rest == DATA_FIELD + [COLON, SPACE] + lines[0] + [LF] + (DataLines(lines[1..]) + rest);
      FieldLine(utf8, f, DATA_FIELD, lines[0], DataLines(lines[1..]) + rest);
      if |lines| == 1 {
        assert lines[1..] == [];
        assert DataLines(lines[1..]) + rest == rest;
      } else {
        DataLinesCollect(utf8, g, lines[1..], rest);
      }
    }
  }

  /** Decoding an encoded event gives back its name and its data, and leaves the rest alone. */
  lemma EncodedEventDecodes(utf8: Bytes -> bool, name: Bytes, lines: seq<Bytes>, rest: Bytes)
    requires LineSafe(utf8, name) && forall i :: 0 <= i < |lines| ==> LineSafe(utf8, lines[i])
    requires |name| < MAX_SSE_EVENT_BYTES && |Join(lines)| + 2 <= MAX_SSE_EVENT_BYTES
    ensures Decode(utf8, NO_FIELDS, Encode(name, lines) + rest) ==
            [Success(SseMessage(Some(name), Collect([], lines)))] + Decode(utf8, NO_FIELDS, rest)
  {
    var named := Fields(Some(name), []);
    assert Encode(name, lines) + rest ==
           EVENT_FIELD + [COLON, SPACE] + name + [LF] + (DataLines(lines) + ([LF] + rest));
    FieldLine(utf8, NO_FIELDS, EVENT_FIELD, name, DataLines(lines) + ([LF] + rest));
    DataLinesCollect(utf8, named, lines, [LF] + rest);
    FirstIndex([LF] + rest, LF, 0);
    assert ([LF] + rest)[1..] == rest && ([LF] + rest)[..0] == [];
  }
}
