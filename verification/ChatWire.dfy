/** Chat Completions as they arrive: listed calls under increasing indices from 0, the legacy function call
    under 0 as well. Exactly when the stream then agrees with the parser of whole responses. */
module ChatWire {
  import opened Wrappers
  import opened Domain
  import opened Seqs
  import opened ChatStream

  // --- Telling the two kinds of pieces apart ----------------------------------------------------------

  /** A piece, and whether it belongs to a legacy function call. */
  datatype Tagged = Tagged(capture: Capture, legacy: bool)

  function Tag(captures: seq<Capture>, legacy: bool): (r: seq<Tagged>)
    ensures |r| == |captures| && forall i :: 0 <= i < |r| ==> r[i] == Tagged(captures[i], legacy)
  {
    seq(|captures|, i requires 0 <= i < |captures| => Tagged(captures[i], legacy))
  }

  /** What the accumulator gets to see. */
  function Untag(tagged: seq<Tagged>): (r: seq<Capture>)
    ensures |r| == |tagged| && forall i :: 0 <= i < |r| ==> r[i] == tagged[i].capture
  {
    seq(|tagged|, i requires 0 <= i < |tagged| => tagged[i].capture)
  }

  /** The pieces of one kind, in order. */
  function Only(tagged: seq<Tagged>, legacy: bool): seq<Capture> {
    if tagged == [] then []
    else
      var last := tagged[|tagged| - 1];
      Only(tagged[..|tagged| - 1], legacy) + if last.legacy == legacy then [last.capture] else []
  }

  /** The pieces of a choice that do not belong to a legacy call. */
  function PlainCaptures(d: ChoiceDelta): seq<Capture> {
    Maybe(d.content, s => CaptureText(d.index, s)) +
    Maybe(d.refusal, s => CaptureRefusal(d.index, s)) +
    ToolListCaptures(d.index, d.toolCalls)
  }

  function TaggedChoice(d: ChoiceDelta): seq<Tagged> {
    Tag(PlainCaptures(d), false) + Tag(FunctionCaptures(d.index, d.functionCall), true)
  }

  function TaggedChoices(choices: seq<ChoiceDelta>): seq<Tagged> {
    if choices == [] then [] else TaggedChoices(choices[..|choices| - 1]) + TaggedChoice(choices[|choices| - 1])
  }

  function TaggedOf(chunks: seq<Chunk>): seq<Tagged> {
    if chunks == [] then [] else TaggedOf(chunks[..|chunks| - 1]) + TaggedChoices(chunks[|chunks| - 1].choices)
  }

  lemma UntagConcat(a: seq<Tagged>, b: seq<Tagged>)
    ensures Untag(a + b) == Untag(a) + Untag(b)
  {}

  lemma UntagTag(captures: seq<Capture>, legacy: bool)
    ensures Untag(Tag(captures, legacy)) == captures
  {}

  lemma UntaggedChoice(d: ChoiceDelta)
    ensures Untag(TaggedChoice(d)) == ChoiceCaptures(d)
  {
    var plain, legacy := PlainCaptures(d), FunctionCaptures(d.index, d.functionCall);
    UntagTag(plain, false);
    UntagTag(legacy, true);
    UntagConcat(Tag(plain, false), Tag(legacy, true));
  }

  lemma {:induction false} UntaggedChoices(choices: seq<ChoiceDelta>)
    ensures Untag(TaggedChoices(choices)) == ChoiceListCaptures(choices)
  {
    if choices != [] {
      var init, last := choices[..|choices| - 1], choices[|choices| - 1];
      UntaggedChoices(init);
      UntaggedChoice(last);
      UntagConcat(TaggedChoices(init), TaggedChoice(last));
    }
  }

  lemma {:induction false} UntaggedIsCaptured(chunks: seq<Chunk>)
    ensures Untag(TaggedOf(chunks)) == CapturesOf(chunks)
  {
    if chunks != [] {
      var init, last := chunks[..|chunks| - 1], chunks[|chunks| - 1];
      UntaggedIsCaptured(init);
      UntaggedChoices(last.choices);
      UntagConcat(TaggedOf(init), TaggedChoices(last.choices));
    }
  }

  /** Legacy pieces are pieces of a call, never of a text. */
  predicate LegacyAreCalls(tagged: seq<Tagged>) {
    forall i :: 0 <= i < |tagged| && tagged[i].legacy ==> tagged[i].capture.IsTool() && tagged[i].capture.tool == 0
  }

  lemma FunctionIsACall(d: ChoiceDelta)
    ensures LegacyAreCalls(Tag(FunctionCaptures(d.index, d.functionCall), true))
  {}

  lemma BothWellTagged(a: seq<Tagged>, b: seq<Tagged>)
    requires LegacyAreCalls(a) && LegacyAreCalls(b)
    ensures LegacyAreCalls(a + b)
  {}

  lemma PlainIsWellTagged(captures: seq<Capture>)
    ensures LegacyAreCalls(Tag(captures, false))
  {}

  lemma {:induction false} ChoicesAreWellTagged(choices: seq<ChoiceDelta>)
    ensures LegacyAreCalls(TaggedChoices(choices))
  {
    if choices != [] {
      var init, d := choices[..|choices| - 1], choices[|choices| - 1];
      ChoicesAreWellTagged(init);
      FunctionIsACall(d);
      PlainIsWellTagged(PlainCaptures(d));
      BothWellTagged(Tag(PlainCaptures(d), false), Tag(FunctionCaptures(d.index, d.functionCall), true));
      BothWellTagged(TaggedChoices(init), TaggedChoice(d));
    }
  }

  lemma {:induction false} ChunksAreWellTagged(chunks: seq<Chunk>)
    ensures LegacyAreCalls(TaggedOf(chunks))
  {
    if chunks != [] {
      var init, last := chunks[..|chunks| - 1], chunks[|chunks| - 1];
      ChunksAreWellTagged(init);
      ChoicesAreWellTagged(last.choices);
      BothWellTagged(TaggedOf(init), TaggedChoices(last.choices));
    }
  }

  // --- What the pieces of one kind say of the whole --------------------------------------------------

  lemma UntagSnoc(init: seq<Tagged>, last: Tagged)
    ensures Untag(init + [last]) == Untag(init) + [last.capture]
    ensures Only(init + [last], last.legacy) == Only(init, last.legacy) + [last.capture]
    ensures Only(init + [last], !last.legacy) == Only(init, !last.legacy)
  {
    assert (init + [last])[..|init|] == init;
  }

  /** Texts come from plain pieces alone. */
  lemma {:induction false} TextIsPlain(tagged: seq<Tagged>, c: nat)
    requires LegacyAreCalls(tagged)
    ensures TextOf(Untag(tagged), c) == TextOf(Only(tagged, false), c)
    ensures RefusalOf(Untag(tagged), c) == RefusalOf(Only(tagged, false), c)
  {
    if tagged != [] {
      var init, last := tagged[..|tagged| - 1], tagged[|tagged| - 1];
      InitLast(tagged);
      TextIsPlain(init, c);
      UntagSnoc(init, last);
      TextSnoc(Untag(init), last.capture, c);
      TextSnoc(Only(init, false), last.capture, c);
    }
  }

  lemma TextSnoc(captures: seq<Capture>, last: Capture, c: nat)
    ensures TextOf(captures + [last], c) ==
              TextOf(captures, c) + if last.CaptureText? && last.choice == c then last.content else ""
    ensures RefusalOf(captures + [last], c) ==
              RefusalOf(captures, c) + if last.CaptureRefusal? && last.choice == c then last.content else ""
    ensures last.IsTool() ==> TextOf(captures + [last], c) == TextOf(captures, c)
                              && RefusalOf(captures + [last], c) == RefusalOf(captures, c)
  {
    assert (captures + [last])[..|captures|] == captures;
    EmptyAround(TextOf(captures, c));
    EmptyAround(RefusalOf(captures, c));
  }

  lemma {:induction false} TouchedByEither(tagged: seq<Tagged>, c: nat, j: nat)
    ensures Touches(Untag(tagged), c) <==> Touches(Only(tagged, false), c) || Touches(Only(tagged, true), c)
    ensures TouchesTool(Untag(tagged), c, j) <==>
              TouchesTool(Only(tagged, false), c, j) || TouchesTool(Only(tagged, true), c, j)
  {
    if tagged != [] {
      var init, last := tagged[..|tagged| - 1], tagged[|tagged| - 1];
      InitLast(tagged);
      TouchedByEither(init, c, j);
      UntagSnoc(init, last);
      TouchesSnoc(Untag(init), last.capture, c);
      TouchesSnoc(Only(init, last.legacy), last.capture, c);
      TouchesToolSnoc(Untag(init), last.capture, c, j);
      TouchesToolSnoc(Only(init, last.legacy), last.capture, c, j);
    }
  }

  /** Two piece lists say the same about one call. */
  ghost predicate SameCall(a: seq<Capture>, b: seq<Capture>, c: nat, j: nat) {
    NameOf(a, c, j) == NameOf(b, c, j) && ArgumentsOf(a, c, j) == ArgumentsOf(b, c, j) && IdOf(a, c, j) == IdOf(b, c, j)
  }

  lemma SameCallSnoc(a: seq<Capture>, b: seq<Capture>, last: Capture, c: nat, j: nat)
    requires SameCall(a, b, c, j)
    ensures SameCall(a + [last], b + [last], c, j)
    ensures !(last.IsTool() && last.choice == c && last.tool == j) ==> SameCall(a + [last], b, c, j)
  {
    assert (a + [last])[..|a|] == a && (b + [last])[..|b|] == b;
    EmptyAround(NameOf(a, c, j));
    EmptyAround(ArgumentsOf(a, c, j));
  }

  /** A call no piece of the other kind touches is what its own kind says. */
  lemma {:induction false} UntouchedByOther(tagged: seq<Tagged>, legacy: bool, c: nat, j: nat)
    requires !TouchesTool(Only(tagged, !legacy), c, j)
    ensures SameCall(Untag(tagged), Only(tagged, legacy), c, j)
  {
    if tagged != [] {
      var init, last := tagged[..|tagged| - 1], tagged[|tagged| - 1];
      InitLast(tagged);
      UntagSnoc(init, last);
      if last.legacy != legacy {
        TouchesToolSnoc(Only(init, !legacy), last.capture, c, j);
      }
      UntouchedByOther(init, legacy, c, j);
      SameCallSnoc(Untag(init), Only(init, legacy), last.capture, c, j);
    }
  }

  // --- Arrival ----------------------------------------------------------------------------------------

  /** The pieces for choice `c` add up to message `m`: its listed calls under the indices `tools`, which
      start at 0, its legacy call under 0 as well. Pieces of all kinds may alternate in any way. */
  ghost predicate ArrivesAs(tagged: seq<Tagged>, c: nat, m: Message, tools: seq<nat>) {
    var plain, legacy := Only(tagged, false), Only(tagged, true);
    && |tools| == |m.toolCalls| && Increasing(tools) && (tools != [] ==> tools[0] == 0)
    && TextOf(plain, c) == OrElse(m.content, "") && RefusalOf(plain, c) == OrElse(m.refusal, "")
    && (forall j :: TouchesTool(plain, c, j) <==> j in tools)
    && (forall t :: 0 <= t < |tools| ==> CutsCall(plain, c, tools[t], m.toolCalls[t]))
    && (forall j :: TouchesTool(legacy, c, j) <==> j == 0 && m.functionCall.Some?)
    && (m.functionCall.Some? ==> CutsCall(legacy, c, 0, m.functionCall.value.(id := None)))
  }

  ghost predicate Arrives(tagged: seq<Tagged>, choices: seq<Message>, indices: seq<nat>, tools: seq<seq<nat>>) {
    && |indices| == |choices| == |tools| && Increasing(indices) && LegacyAreCalls(tagged)
    && (forall c :: Touches(Untag(tagged), c) ==> c in indices)
    && forall k :: 0 <= k < |choices| ==> ArrivesAs(tagged, indices[k], choices[k], tools[k])
  }

  predicate HasBoth(m: Message) {
    m.toolCalls != [] && m.functionCall.Some?
  }

  predicate HasBothIn(choices: seq<Message>) {
    exists k :: 0 <= k < |choices| && HasBoth(choices[k])
  }

  /** The indices the stream ends up with for one choice. */
  function Slots(m: Message, tools: seq<nat>): seq<nat> {
    if m.toolCalls == [] && m.functionCall.Some? then [0] else tools
  }

  function AllSlots(choices: seq<Message>, tools: seq<seq<nat>>): (r: seq<seq<nat>>)
    requires |tools| == |choices|
    ensures |r| == |choices| && forall k :: 0 <= k < |r| ==> r[k] == Slots(choices[k], tools[k])
  {
    seq(|choices|, k requires 0 <= k < |choices| => Slots(choices[k], tools[k]))
  }

  lemma SlotsAreTouched(tagged: seq<Tagged>, c: nat, m: Message, tools: seq<nat>, j: nat)
    requires ArrivesAs(tagged, c, m, tools)
    ensures TouchesTool(Untag(tagged), c, j) <==> j in Slots(m, tools)
    ensures Increasing(Slots(m, tools)) && |Slots(m, tools)| + (if HasBoth(m) then 1 else 0) == |CallsOf(m)|
  {
    TouchedByEither(tagged, c, j);
    if tools != [] {
      assert tools[0] in tools;
    }
  }

  lemma PlainCallIsCut(tagged: seq<Tagged>, c: nat, m: Message, tools: seq<nat>, t: nat)
    requires ArrivesAs(tagged, c, m, tools) && !HasBoth(m) && t < |Slots(m, tools)|
    ensures t < |CallsOf(m)| && CutsCall(Untag(tagged), c, Slots(m, tools)[t], CallsOf(m)[t])
  {
    if m.functionCall.Some? {
      UntouchedByOther(tagged, true, c, 0);
    } else {
      UntouchedByOther(tagged, false, c, tools[t]);
    }
  }

  /** Without both kinds in one choice, an arrival is a cutting. */
  lemma PlainChoiceIsCut(tagged: seq<Tagged>, c: nat, m: Message, tools: seq<nat>, slots: seq<nat>)
    requires ArrivesAs(tagged, c, m, tools) && LegacyAreCalls(tagged) && !HasBoth(m) && slots == Slots(m, tools)
    ensures CutsChoice(Untag(tagged), c, m, slots)
  {
    TextIsPlain(tagged, c);
    SlotsAreTouched(tagged, c, m, tools, 0);
    forall j: nat
      ensures TouchesTool(Untag(tagged), c, j) <==> j in slots
    {
      SlotsAreTouched(tagged, c, m, tools, j);
    }
    forall t | 0 <= t < |slots|
      ensures CutsCall(Untag(tagged), c, slots[t], CallsOf(m)[t])
    {
      PlainCallIsCut(tagged, c, m, tools, t);
    }
  }

  lemma PlainArrivalIsCutting(tagged: seq<Tagged>, choices: seq<Message>, indices: seq<nat>, tools: seq<seq<nat>>)
    requires Arrives(tagged, choices, indices, tools) && !HasBothIn(choices)
    ensures IsCutting(Untag(tagged), choices, indices, AllSlots(choices, tools))
  {
    forall k | 0 <= k < |choices|
      ensures CutsChoice(Untag(tagged), indices[k], choices[k], AllSlots(choices, tools)[k])
    {
      PlainChoiceIsCut(tagged, indices[k], choices[k], tools[k], AllSlots(choices, tools)[k]);
    }
  }

  // --- Counting outputs -------------------------------------------------------------------------------

  lemma {:induction false} OneEach<T>(parts: seq<Result<seq<T>, ModelError>>)
    requires Collect(parts).Success? && forall k :: 0 <= k < |parts| && parts[k].Success? ==> |parts[k].value| == 1
    ensures |Collect(parts).value| == |parts|
  {
    if parts != [] {
      OneEach(parts[..|parts| - 1]);
    }
  }

  /** `a` never yields more than `b`, part by part. */
  ghost predicate NoMore<T>(a: seq<Result<seq<T>, ModelError>>, b: seq<Result<seq<T>, ModelError>>) {
    |a| == |b| && forall k :: 0 <= k < |a| ==> a[k].Success? && b[k].Success? ==> |a[k].value| <= |b[k].value|
  }

  lemma {:induction false} NoMoreInTotal<T>(a: seq<Result<seq<T>, ModelError>>, b: seq<Result<seq<T>, ModelError>>)
    requires NoMore(a, b) && Collect(a).Success? && Collect(b).Success?
    ensures |Collect(a).value| <= |Collect(b).value|
  {
    if a != [] {
      NoMoreInTotal(a[..|a| - 1], b[..|b| - 1]);
    }
  }

  lemma {:induction false} FewerInTotal<T>(a: seq<Result<seq<T>, ModelError>>, b: seq<Result<seq<T>, ModelError>>,
                                           k: nat)
    requires NoMore(a, b) && Collect(a).Success? && Collect(b).Success? && k < |a|
    requires a[k].Success? && b[k].Success? ==> |a[k].value| < |b[k].value|
    ensures |Collect(a).value| < |Collect(b).value|
  {
    if k == |a| - 1 {
      NoMoreInTotal(a[..k], b[..k]);
    } else {
      FewerInTotal(a[..|a| - 1], b[..|b| - 1], k);
    }
  }

  function PickedTools(env: Env, tools: map<nat, ToolAcc>,
                       slots: seq<nat>): (r: seq<Result<seq<ModelOutput>, ModelError>>)
    ensures |r| == |slots| && forall t :: 0 <= t < |r| ==> r[t] == ToolAt(env, tools, slots[t])
  {
    seq(|slots|, t requires 0 <= t < |slots| => ToolAt(env, tools, slots[t]))
  }

  /** The calls of a choice, in index order, are those at its slots. */
  lemma ToolsAreTheSlots(env: Env, tools: map<nat, ToolAcc>, slots: seq<nat>, n: nat)
    requires Increasing(slots) && forall j :: j in tools ==> j in slots
    requires forall t :: 0 <= t < |slots| ==> slots[t] < n
    ensures ToolsBelow(env, tools, n) == Collect(PickedTools(env, tools, slots))
  {
    ToolsBelowIsCollect(env, tools, n);
    CollectSparse(ToolParts(env, tools, n), slots, PickedTools(env, tools, slots));
  }

  lemma PickedToolGivesOne(env: Env, tools: map<nat, ToolAcc>, j: nat)
    requires j in tools && ToolAt(env, tools, j).Success?
    ensures |ToolAt(env, tools, j).value| == 1
  {}

  lemma ToolsAreCounted(env: Env, tools: map<nat, ToolAcc>, slots: seq<nat>)
    requires Increasing(slots) && forall j :: j in tools <==> j in slots
    requires ToolsBelow(env, tools, Above(tools.Keys)).Success?
    ensures |ToolsBelow(env, tools, Above(tools.Keys)).value| == |slots|
  {
    var n, dense := Above(tools.Keys), PickedTools(env, tools, slots);
    forall t | 0 <= t < |slots|
      ensures slots[t] in tools && slots[t] < n
    {
      assert slots[t] in slots;
      assert slots[t] in tools.Keys;
    }
    ToolsAreTheSlots(env, tools, slots, n);
    forall t | 0 <= t < |dense| && dense[t].Success?
      ensures |dense[t].value| == 1
    {
      PickedToolGivesOne(env, tools, slots[t]);
    }
    OneEach(dense);
  }

  lemma HasFirst(slots: seq<nat>)
    requires slots != []
    ensures exists j: nat :: j in slots
  {
    assert slots[0] in slots;
  }

  /** What the stream reports for one choice, if it reports anything. */
  lemma StreamedChoiceCount(env: Env, tagged: seq<Tagged>, c: nat, m: Message, tools: seq<nat>)
    requires ArrivesAs(tagged, c, m, tools) && LegacyAreCalls(tagged)
             && ChoiceAt(env, Accumulated(Untag(tagged)), c).Success?
    ensures |ChoiceAt(env, Accumulated(Untag(tagged)), c).value| ==
            |TextParts(OrElse(m.content, ""), OrElse(m.refusal, ""))| + |Slots(m, tools)|
  {
    var captures, slots := Untag(tagged), Slots(m, tools);
    var choice := ChoiceIn(Accumulated(captures), c);
    TextIsPlain(tagged, c);
    AccumulatedText(captures, c);
    SlotsAreTouched(tagged, c, m, tools, 0);
    forall j: nat
      ensures j in choice.tools <==> j in slots
    {
      SlotsAreTouched(tagged, c, m, tools, j);
      AccumulatedTool(captures, c, j);
    }
    if c in Accumulated(captures) {
      ToolsAreCounted(env, choice.tools, slots);
    } else if slots != [] {
      HasFirst(slots);
    }
  }

  lemma ParsedMessageCount(env: Env, m: Message)
    requires ParseMessage(env, m).Success?
    ensures |ParseMessage(env, m).value| == |TextParts(OrElse(m.content, ""), OrElse(m.refusal, ""))| + |CallsOf(m)|
  {
    var calls := ParsedCalls(env, CallsOf(m));
    forall k | 0 <= k < |calls| && calls[k].Success?
      ensures |calls[k].value| == 1
    {
      CallGivesOneOutput(env, CallsOf(m)[k]);
    }
    OneEach(calls);
  }

  ghost function PickedChoices(env: Env, acc: map<nat, ChoiceAcc>,
                               indices: seq<nat>): (r: seq<Result<seq<ModelOutput>, ModelError>>)
    ensures |r| == |indices| && forall k :: 0 <= k < |r| ==> r[k] == ChoiceAt(env, acc, indices[k])
  {
    if indices == [] then []
    else PickedChoices(env, acc, indices[..|indices| - 1]) + [ChoiceAt(env, acc, indices[|indices| - 1])]
  }

  /** The stream is what it reports for its choices, in their order. */
  lemma StreamIsItsChoices(env: Env, acc: map<nat, ChoiceAcc>, indices: seq<nat>)
    requires Increasing(indices) && forall c :: c in acc ==> c in indices
    ensures ChoicesBelow(env, acc, Above(acc.Keys)) == Collect(PickedChoices(env, acc, indices))
  {
    var n := Above(acc.Keys + set c | c in indices);
    IndicesAreBelow(indices, acc.Keys);
    AboveIsLeast(acc.Keys, n);
    NothingAbove(env, acc, Above(acc.Keys), n);
    ChoicesBelowIsCollect(env, acc, n);
    CollectSparse(ChoiceParts(env, acc, n), indices, PickedChoices(env, acc, indices));
  }

  lemma ArrivedChoicesAreFewer(env: Env, tagged: seq<Tagged>, choices: seq<Message>, indices: seq<nat>,
                               tools: seq<seq<nat>>, k: nat)
    requires Arrives(tagged, choices, indices, tools) && k < |choices|
    ensures var a, b := ChoiceAt(env, Accumulated(Untag(tagged)), indices[k]), ParseMessage(env, choices[k]);
            a.Success? && b.Success? ==> |a.value| + (if HasBoth(choices[k]) then 1 else 0) == |b.value|
  {
    var a, b := ChoiceAt(env, Accumulated(Untag(tagged)), indices[k]), ParseMessage(env, choices[k]);
    if a.Success? && b.Success? {
      StreamedChoiceCount(env, tagged, indices[k], choices[k], tools[k]);
      ParsedMessageCount(env, choices[k]);
      SlotsAreTouched(tagged, indices[k], choices[k], tools[k], 0);
    }
  }

  /** What one choice yields in both forms, found in the lists of all choices. */
  lemma PickedIsNoMore(env: Env, tagged: seq<Tagged>, choices: seq<Message>, indices: seq<nat>, tools: seq<seq<nat>>,
                       a: seq<Result<seq<ModelOutput>, ModelError>>, b: seq<Result<seq<ModelOutput>, ModelError>>,
                       k: nat)
    requires Arrives(tagged, choices, indices, tools) && k < |choices|
    requires a == PickedChoices(env, Accumulated(Untag(tagged)), indices) && b == ParsedMessages(env, choices)
    ensures a[k].Success? && b[k].Success? ==> |a[k].value| <= |b[k].value|
    ensures a[k].Success? && b[k].Success? && HasBoth(choices[k]) ==> |a[k].value| < |b[k].value|
  {
    ArrivedChoicesAreFewer(env, tagged, choices, indices, tools, k);
    assert a[k] == ChoiceAt(env, Accumulated(Untag(tagged)), indices[k]);
    assert b[k] == ParseMessage(env, choices[k]);
  }

  lemma PickedAreFewer(env: Env, tagged: seq<Tagged>, choices: seq<Message>, indices: seq<nat>, tools: seq<seq<nat>>,
                       a: seq<Result<seq<ModelOutput>, ModelError>>, b: seq<Result<seq<ModelOutput>, ModelError>>,
                       k: nat)
    requires Arrives(tagged, choices, indices, tools) && k < |choices| && HasBoth(choices[k])
    requires a == PickedChoices(env, Accumulated(Untag(tagged)), indices) && b == ParsedMessages(env, choices)
    requires Collect(a).Success? && Collect(b).Success?
    ensures |Collect(a).value| < |Collect(b).value|
  {
    forall i | 0 <= i < |a|
      ensures a[i].Success? && b[i].Success? ==> |a[i].value| <= |b[i].value|
    {
      PickedIsNoMore(env, tagged, choices, indices, tools, a, b, i);
    }
    PickedIsNoMore(env, tagged, choices, indices, tools, a, b, k);
    FewerInTotal(a, b, k);
  }

  lemma ArrivedAreListed(tagged: seq<Tagged>, choices: seq<Message>, indices: seq<nat>, tools: seq<seq<nat>>, c: nat)
    requires Arrives(tagged, choices, indices, tools) && c in Accumulated(Untag(tagged))
    ensures c in indices
  {
    AccumulatedText(Untag(tagged), c);
  }

  /** With both kinds in one choice the stream reports fewer outputs than the batch parser. */
  lemma BothKindsMeanFewer(env: Env, tagged: seq<Tagged>, choices: seq<Message>, indices: seq<nat>,
                           tools: seq<seq<nat>>,
                           acc: map<nat, ChoiceAcc>)
    requires Arrives(tagged, choices, indices, tools) && HasBothIn(choices) && acc == Accumulated(Untag(tagged))
    ensures var streamed, batch := ChoicesBelow(env, acc, Above(acc.Keys)), Collect(ParsedMessages(env, choices));
            streamed.Success? && batch.Success? ==> |streamed.value| < |batch.value|
  {
    forall c: nat | c in acc
      ensures c in indices
    {
      ArrivedAreListed(tagged, choices, indices, tools, c);
    }
    StreamIsItsChoices(env, acc, indices);
    var a, b := PickedChoices(env, acc, indices), ParsedMessages(env, choices);
    if Collect(a).Success? && Collect(b).Success? {
      var k :| 0 <= k < |choices| && HasBoth(choices[k]);
      PickedAreFewer(env, tagged, choices, indices, tools, a, b, k);
    }
  }

  /** However a response arrives, the accumulated turn is the parsed turn exactly when no choice has both
      listed calls and a legacy call and no call name is blank, or when both sides fail. */
  lemma StreamAgreesExactlyWhen(env: Env, chunks: seq<Chunk>, r: Response, indices: seq<nat>, tools: seq<seq<nat>>)
    requires Arrives(TaggedOf(chunks), r.choices, indices, tools)
    requires LastUsage(chunks) == r.usage && LastId(chunks) == r.id
    ensures var streamed := FinishSpec(env, Accumulated(CapturesOf(chunks)), LastUsage(chunks), LastId(chunks));
            var batch := ParseChatTurn(env, r);
            && (streamed == batch <==>
                  (!HasBothIn(r.choices) && !HasBlankCallIn(r.choices)) || (streamed.Failure? && batch.Failure?))
            && (HasBothIn(r.choices) && streamed.Success? && batch.Success? ==>
                  |streamed.value.outputs| < |batch.value.outputs|)
  {
    var streamed := FinishSpec(env, Accumulated(CapturesOf(chunks)), LastUsage(chunks), LastId(chunks));
    var batch := ParseChatTurn(env, r);
    UntaggedIsCaptured(chunks);
    if streamed.Failure? {
      OnlyError(streamed.error);
    }
    if batch.Failure? {
      OnlyError(batch.error);
    }
    if HasBothIn(r.choices) {
      var acc := Accumulated(CapturesOf(chunks));
      BothKindsMeanFewer(env, TaggedOf(chunks), r.choices, indices, tools, acc);
    } else {
      PlainArrivalIsCutting(TaggedOf(chunks), r.choices, indices, tools);
      StreamingRefinesBatch(env, chunks, r, indices, AllSlots(r.choices, tools));
    }
  }
}
