/** Pairing tool results with the provider's pending calls when a request is built. */
module Pairing {
  import opened Wrappers
  import opened Domain
  import opened Seqs

  datatype PendingCall = PendingCall(id: string, name: string, arguments: string)

  /** Rendered content. Only a user input that can authorize is offered as evidence; a tool result
      without a matching call is marked as unbound. */
  datatype Content = Evidence(item: ModelContextItem) | History(item: ModelContextItem) | Unbound(content: Content)

  function Render(item: ModelContextItem): Content {
    if item.role == UserRole && item.permission.CanAuthorize() then Evidence(item) else History(item)
  }

  // --- Matching -----------------------------------------------------------------------------------

  /** The first pending call with this id. */
  function FindCall(pending: seq<PendingCall>, id: string): (r: Option<nat>)
    ensures r.Some? ==> r.value < |pending| && pending[r.value].id == id
    ensures r.Some? ==> forall j :: 0 <= j < r.value ==> pending[j].id != id
    ensures r.None? ==> forall j :: 0 <= j < |pending| ==> pending[j].id != id
  {
    if pending == [] then None
    else if pending[0].id == id then Some(0)
    else match FindCall(pending[1..], id) case None => None case Some(j) => Some(j + 1)
  }

  /** The pending call a context item names, if it is a tool result whose name does not contradict it. */
  function CallNamedBy(item: ModelContextItem, pending: seq<PendingCall>): (r: Option<nat>)
    ensures r.Some? ==> r.value < |pending|
  {
    if item.role != ToolRole || item.providerCallId.None? then None
    else
      match FindCall(pending, item.providerCallId.value)
      case None => None
      case Some(p) =>
        if item.toolName.Some? && item.toolName.value != pending[p].name then None else Some(p)
  }

  predicate Taken(matches: seq<(nat, nat)>, p: nat) {
    exists k :: 0 <= k < |matches| && matches[k].1 == p
  }

  /** Matches among the first `n` items: pairs of a context index and a pending index. */
  function MatchesUpTo(context: seq<ModelContextItem>, pending: seq<PendingCall>, n: nat): seq<(nat, nat)>
    requires n <= |context|
    decreases n, 0
  {
    if n == 0 then []
    else
      MatchesUpTo(context, pending, n - 1) +
      match MatchAt(context, pending, n - 1) case Some(p) => [(n - 1, p)] case None => []
  }

  /** The pending call item `i` is paired with: the one it names, unless an earlier item took it. */
  function MatchAt(context: seq<ModelContextItem>, pending: seq<PendingCall>, i: nat): (r: Option<nat>)
    requires i < |context|
    ensures r.Some? ==> r.value < |pending|
    decreases i, 1
  {
    match CallNamedBy(context[i], pending)
    case Some(p) => if Taken(MatchesUpTo(context, pending, i), p) then None else Some(p)
    case None => None
  }

  function Matches(context: seq<ModelContextItem>, pending: seq<PendingCall>): seq<(nat, nat)> {
    MatchesUpTo(context, pending, |context|)
  }

  method MatchedToolResults(context: seq<ModelContextItem>, pending: seq<PendingCall>)
    returns (matches: seq<(nat, nat)>)
    ensures matches == Matches(context, pending)
  {
    matches := [];
    for i := 0 to |context|
      invariant matches == MatchesUpTo(context, pending, i)
    {
      var named := CallNamedBy(context[i], pending);
      if named.None? {
        continue;
      }
      if exists k :: 0 <= k < |matches| && matches[k].1 == named.value {
        continue;
      }
      matches := matches + [(i, named.value)];
    }
  }

  lemma {:induction false} MatchMembers(context: seq<ModelContextItem>, pending: seq<PendingCall>, n: nat, c: nat,
                                        p: nat)
    requires n <= |context|
    ensures (c, p) in MatchesUpTo(context, pending, n) <==> c < n && MatchAt(context, pending, c) == Some(p)
  {
    if n > 0 {
      MatchMembers(context, pending, n - 1, c, p);
    }
  }

  /** Context indices rise, and no pending call is used twice. */
  ghost predicate Orderly(matches: seq<(nat, nat)>, contextBound: nat, pendingBound: nat) {
    && (forall k :: 0 <= k < |matches| ==> matches[k].0 < contextBound && matches[k].1 < pendingBound)
    && (forall j, k :: 0 <= j < k < |matches| ==> matches[j].0 < matches[k].0 && matches[j].1 != matches[k].1)
  }

  lemma {:induction false} MatchesAreOrderly(context: seq<ModelContextItem>, pending: seq<PendingCall>, n: nat)
    requires n <= |context|
    ensures Orderly(MatchesUpTo(context, pending, n), n, |pending|)
  {
    if n > 0 {
      MatchesAreOrderly(context, pending, n - 1);
    }
  }

  // --- The block of calls and outputs -----------------------------------------------------------

  /** The pending indices below `n` that found a result, in pending order. */
  function PairedUpTo(matches: seq<(nat, nat)>, n: nat): seq<nat> {
    if n == 0 then [] else PairedUpTo(matches, n - 1) + if Taken(matches, n - 1) then [n - 1] else []
  }

  ghost predicate Rising(s: seq<nat>, bound: nat) {
    && (forall k :: 0 <= k < |s| ==> s[k] < bound)
    && (forall j, k :: 0 <= j < k < |s| ==> s[j] < s[k])
  }

  lemma {:induction false} PairedIsRising(matches: seq<(nat, nat)>, n: nat)
    ensures Rising(PairedUpTo(matches, n), n)
  {
    if n > 0 {
      PairedIsRising(matches, n - 1);
    }
  }

  lemma {:induction false} PairedMembers(matches: seq<(nat, nat)>, n: nat, p: nat)
    ensures p in PairedUpTo(matches, n) <==> p < n && Taken(matches, p)
  {
    if n > 0 {
      PairedMembers(matches, n - 1, p);
    }
  }

  function Members(s: seq<nat>): set<nat> {
    set x | x in s
  }

  ghost predicate Distinct<T>(s: seq<T>) {
    forall j, k :: 0 <= j < k < |s| ==> s[j] != s[k]
  }

  lemma {:induction false} DistinctSize(s: seq<nat>)
    requires Distinct(s)
    ensures |Members(s)| == |s|
  {
    if s != [] {
      var init := s[..|s| - 1];
      DistinctSize(init);
      assert Members(s) == Members(init) + {s[|s| - 1]};
    }
  }

  function PendingOf(matches: seq<(nat, nat)>): (r: seq<nat>)
    ensures |r| == |matches| && forall k :: 0 <= k < |r| ==> r[k] == matches[k].1
  {
    seq(|matches|, k requires 0 <= k < |matches| => matches[k].1)
  }

  lemma TakenIsPending(matches: seq<(nat, nat)>, p: nat)
    ensures Taken(matches, p) <==> p in PendingOf(matches)
  {}

  /** Every match contributes exactly one call. */
  lemma PairedCount(matches: seq<(nat, nat)>, contextBound: nat, n: nat)
    requires Orderly(matches, contextBound, n)
    ensures |PairedUpTo(matches, n)| == |matches|
  {
    var paired, used := PairedUpTo(matches, n), PendingOf(matches);
    PairedIsRising(matches, n);
    DistinctSize(paired);
    DistinctSize(used);
    forall p: nat
      ensures p in Members(paired) <==> p in Members(used)
    {
      PairedMembers(matches, n, p);
      TakenIsPending(matches, p);
    }
    assert Members(paired) == Members(used);
  }

  /** The context index paired with pending index `p`. */
  function ContextFor(matches: seq<(nat, nat)>, p: nat): (r: nat)
    requires Taken(matches, p)
    ensures (r, p) in matches
  {
    if matches[0].1 == p then matches[0].0
    else
      assert exists k :: 0 <= k < |matches[1..]| && matches[1..][k].1 == p by {
        var k :| 0 <= k < |matches| && matches[k].1 == p;
        assert matches[1..][k - 1].1 == p;
      }
      ContextFor(matches[1..], p)
  }

  /** A paired call is the first pending one with its id, and some tool result names it. */
  lemma PairedIsNamed(context: seq<ModelContextItem>, pending: seq<PendingCall>, p: nat)
    requires Taken(Matches(context, pending), p)
    ensures var c := ContextFor(Matches(context, pending), p);
            && c < |context| && context[c].role == ToolRole && CallNamedBy(context[c], pending) == Some(p)
            && context[c].providerCallId == Some(pending[p].id) && FindCall(pending, pending[p].id) == Some(p)
  {
    MatchMembers(context, pending, |context|, ContextFor(Matches(context, pending), p), p);
  }

  /** Where the block goes: the least matched context index. */
  function FirstMatch(matches: seq<(nat, nat)>): Option<nat> {
    if matches == [] then None
    else
      match FirstMatch(matches[1..])
      case None => Some(matches[0].0)
      case Some(c) => Some(if matches[0].0 <= c then matches[0].0 else c)
  }

  lemma {:induction false} FirstMatchIsFirst(matches: seq<(nat, nat)>, contextBound: nat, pendingBound: nat)
    requires Orderly(matches, contextBound, pendingBound)
    ensures FirstMatch(matches) == if matches == [] then None else Some(matches[0].0)
  {
    if matches != [] {
      FirstMatchIsFirst(matches[1..], contextBound, pendingBound);
    }
  }

  predicate Used(matches: seq<(nat, nat)>, c: nat) {
    exists k :: 0 <= k < |matches| && matches[k].0 == c
  }

  // --- The Responses request --------------------------------------------------------------------

  datatype WireRole = WireSystem | WireDeveloper | WireUser | WireAssistant

  function ToWire(role: ModelInputRole): WireRole {
    match role
    case SystemRole => WireSystem
    case DeveloperRole => WireDeveloper
    case AssistantRole => WireAssistant
    case UserRole => WireUser
    case MemoryRole => WireUser
    case ToolRole => WireUser
  }

  datatype Entry =
    | Message(role: WireRole, content: Content)
    | FunctionCall(id: string, wireName: string, arguments: string)
    | FunctionCallOutput(id: string, output: string)

  function ResponsesMessage(item: ModelContextItem): Entry {
    if item.role == ToolRole then Message(WireUser, Unbound(Render(item))) else Message(ToWire(item.role), Render(item))
  }

  function CallEntry(wire: string -> string, call: PendingCall): Entry {
    FunctionCall(call.id, wire(call.name), call.arguments)
  }

  function CallsUpTo(pending: seq<PendingCall>, matches: seq<(nat, nat)>, wire: string -> string, n: nat): seq<Entry>
    requires n <= |pending|
  {
    if n == 0 then []
    else CallsUpTo(pending, matches, wire, n - 1) + if Taken(matches, n - 1) then [CallEntry(wire, pending[n - 1])]
                                                    else []
  }

  function OutputEntry(context: seq<ModelContextItem>, call: PendingCall, c: nat): Entry {
    FunctionCallOutput(call.id, if c < |context| then context[c].content else "")
  }

  function OutputsUpTo(context: seq<ModelContextItem>, pending: seq<PendingCall>, matches: seq<(nat, nat)>,
                       n: nat): seq<Entry>
    requires n <= |pending|
  {
    if n == 0 then []
    else
      OutputsUpTo(context, pending, matches, n - 1) +
      if Taken(matches, n - 1) then [OutputEntry(context, pending[n - 1], ContextFor(matches, n - 1))] else []
  }

  function Block(context: seq<ModelContextItem>, pending: seq<PendingCall>, wire: string -> string): seq<Entry> {
    var matches := Matches(context, pending);
    CallsUpTo(pending, matches, wire, |pending|) + OutputsUpTo(context, pending, matches, |pending|)
  }

  /** The items between two positions that no call took, as plain messages in their original order. */
  function Rest(context: seq<ModelContextItem>, matches: seq<(nat, nat)>, from: nat, to: nat): seq<Entry>
    requires from <= to <= |context|
  {
    if from == to then []
    else Rest(context, matches, from, to - 1) + if Used(matches, to - 1) then []
                                                else [ResponsesMessage(context[to - 1])]
  }

  function ResponsesUpTo(context: seq<ModelContextItem>, pending: seq<PendingCall>, wire: string -> string,
                         n: nat): seq<Entry>
    requires n <= |context|
  {
    if n == 0 then []
    else
      var matches := Matches(context, pending);
      ResponsesUpTo(context, pending, wire, n - 1) +
      (if FirstMatch(matches) == Some(n - 1) then Block(context, pending, wire) else []) +
      (if Used(matches, n - 1) then [] else [ResponsesMessage(context[n - 1])])
  }

  method EmitBlock(context: seq<ModelContextItem>, pending: seq<PendingCall>, matches: seq<(nat, nat)>,
                   wire: string -> string)
    returns (block: seq<Entry>)
    requires matches == Matches(context, pending)
    ensures block == Block(context, pending, wire)
  {
    block := [];
    for p := 0 to |pending|
      invariant block == CallsUpTo(pending, matches, wire, p)
    {
      if Taken(matches, p) {
        block := block + [FunctionCall(pending[p].id, wire(pending[p].name), pending[p].arguments)];
      }
    }
    ghost var calls := block;
    for p := 0 to |pending|
      invariant block == calls + OutputsUpTo(context, pending, matches, p)
    {
      if !Taken(matches, p) {
        continue;
      }
      PairedIsNamed(context, pending, p);
      var c := ContextFor(matches, p);
      block := block + [FunctionCallOutput(pending[p].id, context[c].content)];
    }
  }

  method ResponsesInput(context: seq<ModelContextItem>, pending: seq<PendingCall>, wire: string -> string)
    returns (input: seq<Entry>)
    ensures input == ResponsesUpTo(context, pending, wire, |context|)
  {
    var matches := MatchedToolResults(context, pending);
    var first := FirstMatch(matches);
    input := [];
    for i := 0 to |context|
      invariant input == ResponsesUpTo(context, pending, wire, i)
    {
      if first == Some(i) {
        var block := EmitBlock(context, pending, matches, wire);
        input := input + block;
      }
      if Used(matches, i) {
        continue;
      }
      var item := context[i];
      if item.role == ToolRole {
        input := input + [Message(WireUser, Unbound(Render(item)))];
      } else {
        input := input + [Message(ToWire(item.role), Render(item))];
      }
    }
  }

  lemma UsedIsMatched(context: seq<ModelContextItem>, pending: seq<PendingCall>, c: nat)
    requires c < |context|
    ensures Used(Matches(context, pending), c) <==> MatchAt(context, pending, c).Some?
  {
    var matches := Matches(context, pending);
    if Used(matches, c) {
      var k :| 0 <= k < |matches| && matches[k].0 == c;
      MatchMembers(context, pending, |context|, c, matches[k].1);
    }
    if MatchAt(context, pending, c).Some? {
      MatchMembers(context, pending, |context|, c, MatchAt(context, pending, c).value);
    }
  }

  lemma {:induction false} RestLength(context: seq<ModelContextItem>, pending: seq<PendingCall>, n: nat)
    requires n <= |context|
    ensures |Rest(context, Matches(context, pending), 0, n)| + |MatchesUpTo(context, pending, n)| == n
  {
    if n > 0 {
      RestLength(context, pending, n - 1);
      UsedIsMatched(context, pending, n - 1);
    }
  }

  lemma {:induction false} RestSplits(context: seq<ModelContextItem>, matches: seq<(nat, nat)>, from: nat, mid: nat,
                                      to: nat)
    requires from <= mid <= to <= |context|
    ensures Rest(context, matches, from, to) == Rest(context, matches, from, mid) + Rest(context, matches, mid, to)
  {
    if mid == to {
      AppendEmpty(Rest(context, matches, from, mid));
    } else {
      RestSplits(context, matches, from, mid, to - 1);
      Regroup(Rest(context, matches, from, mid), Rest(context, matches, mid, to - 1),
              if Used(matches, to - 1) then [] else [ResponsesMessage(context[to - 1])]);
    }
  }

  lemma {:induction false} RestBeforeBlock(context: seq<ModelContextItem>, pending: seq<PendingCall>,
                                           wire: string -> string, n: nat)
    requires n <= |context|
    requires FirstMatch(Matches(context, pending)) == None || n <= FirstMatch(Matches(context, pending)).value
    ensures ResponsesUpTo(context, pending, wire, n) == Rest(context, Matches(context, pending), 0, n)
  {
    if n > 0 {
      RestBeforeBlock(context, pending, wire, n - 1);
      AppendEmpty(ResponsesUpTo(context, pending, wire, n - 1));
    }
  }

  /** From the first match on, the block sits where that match was. */
  lemma {:induction false} BlockIsInserted(context: seq<ModelContextItem>, pending: seq<PendingCall>,
                                           wire: string -> string, first: nat, n: nat)
    requires first < n <= |context| && FirstMatch(Matches(context, pending)) == Some(first)
    ensures var matches := Matches(context, pending);
            ResponsesUpTo(context, pending, wire, n) ==
            Rest(context, matches, 0, first) + Block(context, pending, wire) + Rest(context, matches, first, n)
  {
    var matches := Matches(context, pending);
    var before, block := Rest(context, matches, 0, first), Block(context, pending, wire);
    var step := if Used(matches, n - 1) then [] else [ResponsesMessage(context[n - 1])];
    if n - 1 == first {
      RestBeforeBlock(context, pending, wire, first);
      AppendEmpty(step);
    } else {
      BlockIsInserted(context, pending, wire, first, n - 1);
      AppendEmpty(ResponsesUpTo(context, pending, wire, n - 1));
      Regroup(before + block, Rest(context, matches, first, n - 1), step);
    }
  }

  lemma {:induction false} CallsAreThePaired(context: seq<ModelContextItem>, pending: seq<PendingCall>,
                                             matches: seq<(nat, nat)>,
                                             wire: string -> string, n: nat)
    requires n <= |pending|
    ensures var paired := PairedUpTo(matches, n);
            var calls, outputs := CallsUpTo(pending, matches, wire, n), OutputsUpTo(context, pending, matches, n);
            && |calls| == |outputs| == |paired|
            && forall k :: 0 <= k < |paired| ==>
                 && paired[k] < n && Taken(matches, paired[k])
                 && calls[k] == CallEntry(wire, pending[paired[k]])
                 && outputs[k] == OutputEntry(context, pending[paired[k]], ContextFor(matches, paired[k]))
  {
    if n > 0 {
      CallsAreThePaired(context, pending, matches, wire, n - 1);
    }
  }

  /** The output at `k` answers the call at `k`: same id, and the content of a tool result that
      carries this id. */
  ghost predicate Answers(context: seq<ModelContextItem>, call: Entry, output: Entry) {
    && call.FunctionCall? && output.FunctionCallOutput? && call.id == output.id
    && exists c :: 0 <= c < |context| && context[c].role == ToolRole
         && context[c].providerCallId == Some(call.id) && context[c].content == output.output
  }

  /** Calls and outputs correspond one to one, in the same order, under distinct ids. */
  ghost predicate WellPaired(context: seq<ModelContextItem>, calls: seq<Entry>, outputs: seq<Entry>) {
    && |calls| == |outputs|
    && (forall k :: 0 <= k < |calls| ==> Answers(context, calls[k], outputs[k]))
    && forall j, k :: 0 <= j < k < |calls| ==>
                        calls[j].FunctionCall? && calls[k].FunctionCall? && calls[j].id != calls[k].id
  }

  lemma BlockIsWellPaired(context: seq<ModelContextItem>, pending: seq<PendingCall>, wire: string -> string)
    ensures var matches := Matches(context, pending);
            var calls := CallsUpTo(pending, matches, wire, |pending|);
            var outputs := OutputsUpTo(context, pending, matches, |pending|);
            WellPaired(context, calls, outputs) && |calls| == |matches|
  {
    var matches := Matches(context, pending);
    var paired := PairedUpTo(matches, |pending|);
    var calls := CallsUpTo(pending, matches, wire, |pending|);
    var outputs := OutputsUpTo(context, pending, matches, |pending|);
    CallsAreThePaired(context, pending, matches, wire, |pending|);
    PairedIsRising(matches, |pending|);
    MatchesAreOrderly(context, pending, |context|);
    PairedCount(matches, |context|, |pending|);
    forall k | 0 <= k < |calls|
      ensures Answers(context, calls[k], outputs[k])
    {
      PairedIsNamed(context, pending, paired[k]);
      var c := ContextFor(matches, paired[k]);
      assert context[c].providerCallId == Some(calls[k].id) && context[c].content == outputs[k].output;
    }
    forall j, k | 0 <= j < k < |calls|
      ensures calls[j].FunctionCall? && calls[k].FunctionCall? && calls[j].id != calls[k].id
    {
      PairedIsNamed(context, pending, paired[k]);
      assert paired[j] < paired[k];
    }
  }

  /** How much of the context lies before the block. */
  function BlockPosition(context: seq<ModelContextItem>, pending: seq<PendingCall>): (n: nat)
    ensures n <= |context|
  {
    match FirstMatch(Matches(context, pending))
    case Some(first) => if first <= |context| then first else |context|
    case None => |context|
  }

  lemma FirstMatchIsATool(context: seq<ModelContextItem>, pending: seq<PendingCall>)
    ensures match FirstMatch(Matches(context, pending))
            case Some(c) => c < |context| && context[c].role == ToolRole && Used(Matches(context, pending), c)
            case None => Matches(context, pending) == []
  {
    var matches := Matches(context, pending);
    MatchesAreOrderly(context, pending, |context|);
    FirstMatchIsFirst(matches, |context|, |pending|);
    if matches != [] {
      MatchMembers(context, pending, |context|, matches[0].0, matches[0].1);
      assert Used(matches, matches[0].0);
    }
  }

  lemma NoMatchesNoBlock(context: seq<ModelContextItem>, pending: seq<PendingCall>, wire: string -> string)
    requires Matches(context, pending) == []
    ensures Block(context, pending, wire) == []
  {
    BlockIsWellPaired(context, pending, wire);
  }

  /** The whole request: unmatched items once each in their original order, with one well-paired
      block of calls and outputs in between; every item is accounted for once. */
  lemma ResponsesInputIsWellFormed(context: seq<ModelContextItem>, pending: seq<PendingCall>, wire: string -> string)
    ensures var matches := Matches(context, pending);
            var at := BlockPosition(context, pending);
            var before, after := Rest(context, matches, 0, at), Rest(context, matches, at, |context|);
            var calls := CallsUpTo(pending, matches, wire, |pending|);
            var outputs := OutputsUpTo(context, pending, matches, |pending|);
            && ResponsesUpTo(context, pending, wire, |context|) == before + (calls + outputs) + after
            && WellPaired(context, calls, outputs)
            && |calls| == |matches|
            && |before| + |after| + |matches| == |context|
  {
    FirstMatchIsATool(context, pending);
    BlockIsWellPaired(context, pending, wire);
    RestLength(context, pending, |context|);
    var matches := Matches(context, pending);
    RestSplits(context, matches, 0, BlockPosition(context, pending), |context|);
    match FirstMatch(matches)
    case None =>
      NoMatchesNoBlock(context, pending, wire);
      RestBeforeBlock(context, pending, wire, |context|);
      AppendEmpty(Rest(context, matches, 0, |context|));
    case Some(first) => BlockIsInserted(context, pending, wire, first, |context|);
  }

  lemma ResponsesInputLength(context: seq<ModelContextItem>, pending: seq<PendingCall>, wire: string -> string)
    ensures |ResponsesUpTo(context, pending, wire, |context|)| == |context| + |Matches(context, pending)|
  {
    ResponsesInputIsWellFormed(context, pending, wire);
  }
}
