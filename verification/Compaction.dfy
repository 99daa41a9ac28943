/** Fitting a model context into its token budget by summarising its oldest ordinary items. */
module Compaction {
  import opened Wrappers
  import opened Domain
  import opened ContextAssembly
  import opened Seqs
  import Checkpoints

  // --- Estimating ---------------------------------------------------------------------------------

  function Utf8Width(c: char): nat {
    if c as int < 0x80 then 1 else if c as int < 0x800 then 2 else if c as int < 0x1_0000 then 3 else 4
  }

  function Utf8Length(s: string): nat {
    if s == [] then 0 else Utf8Length(s[..|s| - 1]) + Utf8Width(s[|s| - 1])
  }

  /** A third of the bytes, rounded up, and at least one token. */
  function ExactTextTokens(s: string): nat {
    ((if Utf8Length(s) >= 1 then Utf8Length(s) else 1) + 2) / 3
  }

  const ITEM_OVERHEAD: nat := 8

  /** What the context costs, counted without any limit. */
  function ExactTokens(context: seq<ModelContextItem>): nat {
    if context == [] then 0
    else ExactTokens(context[..|context| - 1]) + ExactTextTokens(context[|context| - 1].content) + ITEM_OVERHEAD
  }

  function Tokens(context: seq<ModelContextItem>): nat {
    Cap32(ExactTokens(context))
  }

  /** Adding up with saturation at every step gives the exact total, cut off once at the end. */
  method EstimateContextTokens(context: seq<ModelContextItem>) returns (total: nat)
    ensures total == Tokens(context)
  {
    total := 0;
    for i := 0 to |context|
      invariant total == Tokens(context[..i])
    {
      assert context[..i + 1][..i] == context[..i];
      var text := Cap32(ExactTextTokens(context[i].content));
      total := SaturatingAdd32(SaturatingAdd32(total, text), ITEM_OVERHEAD);
    }
    assert context[..|context|] == context;
  }

  lemma {:induction false} TokensOfConcat(a: seq<ModelContextItem>, b: seq<ModelContextItem>)
    ensures ExactTokens(a + b) == ExactTokens(a) + ExactTokens(b)
  {
    if b == [] {
      assert a + b == a;
    } else {
      assert (a + b)[..|a + b| - 1] == a + b[..|b| - 1];
      TokensOfConcat(a, b[..|b| - 1]);
    }
  }

  // --- Summaries ----------------------------------------------------------------------------------

  const HEADER := "较早事件摘要："
  const NOTHING_KEPT := "（没有可保留的文本内容）"

  function Label(role: ModelInputRole): string {
    match role
    case UserRole => "用户"
    case AssistantRole => "助手"
    case ToolRole => "工具"
    case SystemRole => "系统"
    case DeveloperRole => "开发者"
    case MemoryRole => "历史资料"
  }

  function Minus(a: nat, b: nat): nat {
    if a >= b then a - b else 0
  }

  function AtLeastOne(n: nat): nat {
    if n >= 1 then n else 1
  }

  function TruncateChars(s: string, limit: nat): (r: string)
    ensures |r| <= AtLeastOne(limit) && (|s| <= limit ==> r == s) && (|s| > limit ==> |r| == AtLeastOne(limit))
  {
    if |s| <= limit then s else s[..Minus(limit, 1)] + "…"
  }

  function Line(item: ModelContextItem, room: nat): string {
    var prefix := "- " + Label(item.role) + "：";
    prefix + TruncateChars(item.content, AtLeastOne(Minus(room, |prefix|))) + "\n"
  }

  /** The summary of the first `n` items, before the closing remark. */
  function LinesUpTo(items: seq<ModelContextItem>, limit: nat, n: nat): string
    requires n <= |items|
  {
    if n == 0 then HEADER + "\n" else AddLine(LinesUpTo(items, limit, n - 1), items[n - 1], limit)
  }

  /** A summary that has reached its limit takes no more lines. */
  function AddLine(s: string, item: ModelContextItem, limit: nat): string {
    if |s| >= limit then s else s + Line(item, limit - |s|)
  }

  function SummaryOf(items: seq<ModelContextItem>, limit: nat): string {
    Closed(LinesUpTo(items, limit, |items|))
  }

  /** A summary without a single line says so. */
  function Closed(s: string): string {
    if Trim(s) == HEADER then s + NOTHING_KEPT else s
  }

  lemma {:induction false} FullStaysFull(items: seq<ModelContextItem>, limit: nat, from: nat, n: nat)
    requires from <= n <= |items| && |LinesUpTo(items, limit, from)| >= limit
    ensures LinesUpTo(items, limit, n) == LinesUpTo(items, limit, from)
  {
    if from < n {
      FullStaysFull(items, limit, from, n - 1);
    }
  }

  lemma NextLine(items: seq<ModelContextItem>, limit: nat, i: nat, s: string, line: string)
    requires i < |items| && s == LinesUpTo(items, limit, i) && |s| < limit && line == Line(items[i], limit - |s|)
    ensures LinesUpTo(items, limit, i + 1) == s + line
  {}

  /** Lines in order, until the limit is reached. */
  method CollectLines(items: seq<ModelContextItem>, limit: nat) returns (summary: string)
    ensures summary == LinesUpTo(items, limit, |items|)
  {
    summary := HEADER + "\n";
    var i := 0;
    while i < |items| && |summary| < limit
      invariant i <= |items| && summary == LinesUpTo(items, limit, i)
    {
      var line := Line(items[i], limit - |summary|);
      NextLine(items, limit, i, summary, line);
      summary := summary + line;
      i := i + 1;
    }
    if i < |items| {
      FullStaysFull(items, limit, i, |items|);
    }
  }

  method SummarizeItems(items: seq<ModelContextItem>, limit: nat) returns (summary: string)
    ensures summary == SummaryOf(items, limit)
  {
    var lines := CollectLines(items, limit);
    summary := Closed(lines);
  }

  lemma LabelIsShort(role: ModelInputRole)
    ensures 2 <= |Label(role)| <= 4
  {}

  /** A line overruns its room by at most eight characters. */
  lemma LineLength(item: ModelContextItem, room: nat)
    requires room >= 1
    ensures |Line(item, room)| <= room + 8 && '-' in Line(item, room)
  {
    LabelIsShort(item.role);
    var prefix := "- " + Label(item.role) + "：";
    assert |prefix| <= 7 && prefix[0] == '-';
    assert Line(item, room)[0] == '-';
  }

  lemma {:induction false} TrimKeeps(s: string, c: char)
    requires c in s && !IsWhitespace(c)
    ensures c in Trim(s)
  {
    TrimStartKeeps(s, c);
    TrimEndKeeps(TrimStart(s), c);
  }

  lemma {:induction false} TrimStartKeeps(s: string, c: char)
    requires c in s && !IsWhitespace(c)
    ensures c in TrimStart(s)
  {
    if IsWhitespace(s[0]) {
      TrimStartKeeps(s[1..], c);
    }
  }

  lemma {:induction false} TrimEndKeeps(s: string, c: char)
    requires c in s && !IsWhitespace(c)
    ensures c in TrimEnd(s)
  {
    if IsWhitespace(s[|s| - 1]) {
      assert s == s[..|s| - 1] + [s[|s| - 1]];
      TrimEndKeeps(s[..|s| - 1], c);
    }
  }

  lemma {:induction false} LinesLength(items: seq<ModelContextItem>, limit: nat, n: nat)
    requires n <= |items|
    ensures var s := LinesUpTo(items, limit, n);
            (s == HEADER + "\n" || ('-' in s && |s| <= limit + 8)) && |HEADER + "\n"| == 8
  {
    if n > 0 {
      LinesLength(items, limit, n - 1);
      var s := LinesUpTo(items, limit, n - 1);
      if |s| < limit {
        LineLength(items[n - 1], limit - |s|);
      }
    }
  }

  /** A summary is at most eight characters over its limit, but for the fixed texts, which are twenty. */
  lemma SummaryLength(items: seq<ModelContextItem>, limit: nat)
    ensures |SummaryOf(items, limit)| <= limit + 8 || |SummaryOf(items, limit)| <= 20
  {
    var s := LinesUpTo(items, limit, |items|);
    LinesLength(items, limit, |items|);
    if '-' in s {
      TrimKeeps(s, '-');
    }
  }

  // --- What is dropped ------------------------------------------------------------------------------

  /** System and developer messages and current tool results are never dropped. */
  predicate IsDroppable(item: ModelContextItem) {
    !(item.role.SystemRole? || item.role.DeveloperRole? || item.role.ToolRole?)
  }

  /** The positions of droppable items among the first `n`. */
  function CandidatesUpTo(context: seq<ModelContextItem>, n: nat): seq<nat>
    requires n <= |context|
  {
    if n == 0 then [] else CandidatesUpTo(context, n - 1) + if IsDroppable(context[n - 1]) then [n - 1] else []
  }

  function Candidates(context: seq<ModelContextItem>): seq<nat> {
    CandidatesUpTo(context, |context|)
  }

  /** Item `i` is among the first `count` droppable ones. */
  predicate IsDropped(context: seq<ModelContextItem>, count: nat, i: nat)
    requires i < |context|
  {
    IsDroppable(context[i]) && |CandidatesUpTo(context, i)| < count
  }

  function DroppedUpTo(context: seq<ModelContextItem>, count: nat, n: nat): seq<ModelContextItem>
    requires n <= |context|
  {
    if n == 0 then []
    else DroppedUpTo(context, count, n - 1) + if IsDropped(context, count, n - 1) then [context[n - 1]] else []
  }

  function RemainingUpTo(context: seq<ModelContextItem>, count: nat, n: nat): seq<ModelContextItem>
    requires n <= |context|
  {
    if n == 0 then []
    else RemainingUpTo(context, count, n - 1) + if IsDropped(context, count, n - 1) then [] else [context[n - 1]]
  }

  function Dropped(context: seq<ModelContextItem>, count: nat): seq<ModelContextItem> {
    DroppedUpTo(context, count, |context|)
  }

  function Remaining(context: seq<ModelContextItem>, count: nat): seq<ModelContextItem> {
    RemainingUpTo(context, count, |context|)
  }

  /** Two lists that make up a third, counting repetitions. */
  ghost predicate MakeUp(a: seq<ModelContextItem>, b: seq<ModelContextItem>, all: seq<ModelContextItem>) {
    multiset(a) + multiset(b) == multiset(all)
  }

  lemma MoveOne(dropped: seq<ModelContextItem>, remaining: seq<ModelContextItem>, all: seq<ModelContextItem>,
                item: ModelContextItem)
    requires MakeUp(dropped, remaining, all)
    ensures MakeUp(dropped + [item], remaining + [], all + [item])
            && MakeUp(dropped + [], remaining + [item], all + [item])
  {}

  /** Both lists keep the order of the context. */
  lemma {:induction false} DropsKeepOrder(context: seq<ModelContextItem>, count: nat, n: nat)
    requires n <= |context|
    ensures Subsequence(DroppedUpTo(context, count, n), context[..n])
    ensures Subsequence(RemainingUpTo(context, count, n), context[..n])
  {
    if n > 0 {
      var dropped, remaining := DroppedUpTo(context, count, n - 1), RemainingUpTo(context, count, n - 1);
      DropsKeepOrder(context, count, n - 1);
      TakeSnoc(context, n - 1);
      AppendEmpty(dropped);
      AppendEmpty(remaining);
      SubsequenceSnoc(dropped, context[..n - 1], context[n - 1]);
      SubsequenceSnoc(remaining, context[..n - 1], context[n - 1]);
    }
  }

  /** Dropped and remaining items partition the context. */
  lemma {:induction false} DropPartitions(context: seq<ModelContextItem>, count: nat, n: nat)
    requires n <= |context|
    ensures MakeUp(DroppedUpTo(context, count, n), RemainingUpTo(context, count, n), context[..n])
  {
    if n > 0 {
      DropPartitions(context, count, n - 1);
      DropNext(context, count, n, DroppedUpTo(context, count, n - 1), RemainingUpTo(context, count, n - 1));
    }
  }

  lemma DropNext(context: seq<ModelContextItem>, count: nat, n: nat, dropped: seq<ModelContextItem>,
                 remaining: seq<ModelContextItem>)
    requires 0 < n <= |context| && MakeUp(dropped, remaining, context[..n - 1])
    requires dropped == DroppedUpTo(context, count, n - 1) && remaining == RemainingUpTo(context, count, n - 1)
    ensures MakeUp(DroppedUpTo(context, count, n), RemainingUpTo(context, count, n), context[..n])
  {
    MoveOne(dropped, remaining, context[..n - 1], context[n - 1]);
    TakeSnoc(context, n - 1);
  }

  lemma {:induction false} OnlyDroppablesDropped(context: seq<ModelContextItem>, count: nat, n: nat)
    requires n <= |context|
    ensures forall item :: item in DroppedUpTo(context, count, n) ==> IsDroppable(item)
    ensures |DroppedUpTo(context, count, n)| ==
              if |CandidatesUpTo(context, n)| <= count then |CandidatesUpTo(context, n)| else count
  {
    if n > 0 {
      OnlyDroppablesDropped(context, count, n - 1);
    }
  }

  /** Everything pinned remains, and everything behind the last dropped item. */
  lemma {:induction false} RestRemains(context: seq<ModelContextItem>, count: nat, n: nat, item: ModelContextItem)
    requires n <= |context| && item in context[..n] && !IsDroppable(item)
    ensures item in RemainingUpTo(context, count, n)
  {
    assert context[..n] == context[..n - 1] + [context[n - 1]];
    if item != context[n - 1] {
      RestRemains(context, count, n - 1, item);
    }
  }

  lemma {:induction false} CandidateOrder(context: seq<ModelContextItem>, n: nat)
    requires n <= |context|
    ensures var c := CandidatesUpTo(context, n);
            && (forall k :: 0 <= k < |c| ==>
                              c[k] < n && IsDroppable(context[c[k]]) && |CandidatesUpTo(context, c[k])| == k)
            && (forall i :: 0 <= i < n && IsDroppable(context[i]) ==> i in c)
  {
    if n > 0 {
      CandidateOrder(context, n - 1);
      var c, d := CandidatesUpTo(context, n), CandidatesUpTo(context, n - 1);
      if IsDroppable(context[n - 1]) {
        assert c[|d|] == n - 1;
      }
      forall i | 0 <= i < n && IsDroppable(context[i])
        ensures i in c
      {
        if i < n - 1 {
          assert i in d;
        }
      }
    }
  }

  /** The first `count` candidates are exactly the dropped positions. */
  lemma PrefixIsDropped(context: seq<ModelContextItem>, count: nat, i: nat)
    requires i < |context| && count <= |Candidates(context)|
    ensures i in Candidates(context)[..count] <==> IsDropped(context, count, i)
  {
    var c := Candidates(context);
    CandidateOrder(context, |context|);
    if i in c[..count] {
      var k :| 0 <= k < count && c[k] == i;
      assert |CandidatesUpTo(context, c[k])| == k;
    }
    if IsDropped(context, count, i) {
      assert i in c;
      var k :| 0 <= k < |c| && c[k] == i;
      assert k == |CandidatesUpTo(context, i)| < count;
      assert c[..count][k] == c[k];
    }
  }

  // --- One attempt ----------------------------------------------------------------------------------

  /** Where the summary goes: in place of the first droppable item. */
  function SummaryPosition(context: seq<ModelContextItem>): nat
    requires Candidates(context) != []
  {
    Candidates(context)[0]
  }

  function InsertItem(context: seq<ModelContextItem>, position: nat, item: ModelContextItem): seq<ModelContextItem> {
    var p := if position <= |context| then position else |context|;
    context[..p] + [item] + context[p..]
  }

  lemma Cut(context: seq<ModelContextItem>, p: nat)
    requires p <= |context|
    ensures context[..p] + context[p..] == context
  {}

  lemma TokensAround(before: seq<ModelContextItem>, after: seq<ModelContextItem>, item: ModelContextItem)
    ensures ExactTokens(before + [item] + after) == ExactTokens(before + after) + ExactTokens([item])
  {
    TokensOfConcat(before + [item], after);
    TokensOfConcat(before, [item]);
    TokensOfConcat(before, after);
  }

  lemma InsertedTokens(context: seq<ModelContextItem>, position: nat, item: ModelContextItem)
    ensures ExactTokens(InsertItem(context, position, item)) == ExactTokens(context) + ExactTokens([item])
  {
    var p := if position <= |context| then position else |context|;
    TokensAround(context[..p], context[p..], item);
    Cut(context, p);
  }

  predicate Fits(remaining: seq<ModelContextItem>, position: nat, summary: string, budget: nat) {
    Tokens(InsertItem(remaining, position, SummaryItem(0, summary))) <= budget
  }

  /** Only the text of the summary matters, not the identifier it will carry. */
  lemma FitsUnderAnyId(remaining: seq<ModelContextItem>, position: nat, summary: string, budget: nat, id: EventId)
    ensures Fits(remaining, position, summary, budget) <==>
              Tokens(InsertItem(remaining, position, SummaryItem(id, summary))) <= budget
  {
    InsertedTokens(remaining, position, SummaryItem(0, summary));
    InsertedTokens(remaining, position, SummaryItem(id, summary));
    OneItemTokens(SummaryItem(0, summary));
    OneItemTokens(SummaryItem(id, summary));
  }

  lemma OneItemTokens(item: ModelContextItem)
    ensures ExactTokens([item]) == ExactTextTokens(item.content) + ITEM_OVERHEAD
  {}

  /** The summary and its successive halvings, down to sixteen characters. */
  function Halvings(summary: string): seq<string>
    decreases |summary|
  {
    [summary] + if |summary| <= 16 then [] else Halvings(TruncateChars(summary, |summary| / 2))
  }

  function FirstFit(remaining: seq<ModelContextItem>, position: nat, summary: string, budget: nat): Option<string>
    decreases |summary|
  {
    if Fits(remaining, position, summary, budget) then Some(summary)
    else if |summary| <= 16 then None
    else FirstFit(remaining, position, TruncateChars(summary, |summary| / 2), budget)
  }

  /** The longest halving that fits, if any does. */
  lemma {:induction false} FirstFitIsFirst(remaining: seq<ModelContextItem>, position: nat, summary: string,
                                           budget: nat)
    ensures match FirstFit(remaining, position, summary, budget)
            case None => forall s :: s in Halvings(summary) ==> !Fits(remaining, position, s, budget)
            case Some(s) => s in Halvings(summary) && Fits(remaining, position, s, budget)
    decreases |summary|
  {
    if !Fits(remaining, position, summary, budget) && |summary| > 16 {
      FirstFitIsFirst(remaining, position, TruncateChars(summary, |summary| / 2), budget);
    }
  }

  method HalveUntilFit(remaining: seq<ModelContextItem>, position: nat, first: string, budget: nat)
    returns (r: Option<string>)
    ensures r == FirstFit(remaining, position, first, budget)
  {
    var summary := first;
    while true
      invariant FirstFit(remaining, position, first, budget) == FirstFit(remaining, position, summary, budget)
      decreases |summary|
    {
      var probe := SummaryItem(0, summary);
      var estimated := EstimateContextTokens(InsertItem(remaining, position, probe));
      if estimated <= budget {
        return Some(summary);
      }
      var length := |summary|;
      if length <= 16 {
        return None;
      }
      summary := TruncateChars(summary, length / 2);
    }
  }

  datatype Plan = Plan(summaryPosition: nat, remaining: seq<ModelContextItem>, dropped: seq<EventId>, summary: string)

  datatype CompactionError = NoCompactableContext(estimated: nat, budget: nat)

  /** Three tenths of the budget, in characters. */
  function SummaryCharBudget(budget: nat): nat {
    AtLeastOne(budget * 3 / 10)
  }

  function ItemIds(items: seq<ModelContextItem>): (r: seq<EventId>)
    ensures |r| == |items| && forall k :: 0 <= k < |r| ==> r[k] == items[k].eventId
  {
    seq(|items|, k requires 0 <= k < |items| => items[k].eventId)
  }

  /** Dropping the first `count` droppable items, under the longest summary that then fits. */
  function Attempt(context: seq<ModelContextItem>, budget: nat, count: nat): Option<Plan>
    requires Candidates(context) != []
  {
    var dropped, remaining := Dropped(context, count), Remaining(context, count);
    match FirstFit(remaining, SummaryPosition(context), SummaryOf(dropped, SummaryCharBudget(budget)), budget)
    case None => None
    case Some(summary) => Some(Plan(SummaryPosition(context), remaining, ItemIds(dropped), summary))
  }

  /** Some summary in the halving chain makes dropping `count` items enough. */
  ghost predicate CanFit(context: seq<ModelContextItem>, budget: nat, count: nat)
    requires Candidates(context) != []
  {
    exists s :: s in Halvings(SummaryOf(Dropped(context, count), SummaryCharBudget(budget)))
                && Fits(Remaining(context, count), SummaryPosition(context), s, budget)
  }

  /** Dropping fewer than `count` items is not enough. */
  ghost predicate TooFew(context: seq<ModelContextItem>, budget: nat, count: nat)
    requires Candidates(context) != []
  {
    forall fewer :: 1 <= fewer < count ==> !CanFit(context, budget, fewer)
  }

  lemma AttemptIffCanFit(context: seq<ModelContextItem>, budget: nat, count: nat)
    requires Candidates(context) != []
    ensures Attempt(context, budget, count).Some? <==> CanFit(context, budget, count)
  {
    FirstFitIsFirst(Remaining(context, count), SummaryPosition(context),
                    SummaryOf(Dropped(context, count), SummaryCharBudget(budget)), budget);
  }

  lemma OneMoreIsTooFew(context: seq<ModelContextItem>, budget: nat, count: nat)
    requires Candidates(context) != [] && TooFew(context, budget, count) && Attempt(context, budget, count) == None
    ensures TooFew(context, budget, count + 1)
  {
    AttemptIffCanFit(context, budget, count);
    OneMore(context, budget, count);
  }

  lemma OneMore(context: seq<ModelContextItem>, budget: nat, count: nat)
    requires Candidates(context) != [] && TooFew(context, budget, count) && !CanFit(context, budget, count)
    ensures TooFew(context, budget, count + 1)
  {
    forall fewer | 1 <= fewer < count + 1
      ensures !CanFit(context, budget, fewer)
    {
      assert fewer < count || fewer == count;
    }
  }

  // --- The whole search -----------------------------------------------------------------------------

  method FindCandidates(context: seq<ModelContextItem>) returns (candidates: seq<nat>)
    ensures candidates == Candidates(context)
  {
    candidates := [];
    for i := 0 to |context|
      invariant candidates == CandidatesUpTo(context, i)
    {
      if IsDroppable(context[i]) {
        candidates := candidates + [i];
      }
    }
  }

  /** Splits the context by the positions to drop. */
  method Split(context: seq<ModelContextItem>, candidates: seq<nat>, count: nat)
    returns (dropped: seq<ModelContextItem>, remaining: seq<ModelContextItem>)
    requires candidates == Candidates(context) && count <= |candidates|
    ensures dropped == Dropped(context, count) && remaining == Remaining(context, count)
  {
    var indices := set i | i in candidates[..count];
    dropped, remaining := [], [];
    for i := 0 to |context|
      invariant dropped == DroppedUpTo(context, count, i) && remaining == RemainingUpTo(context, count, i)
    {
      PrefixIsDropped(context, count, i);
      if i in indices {
        dropped := dropped + [context[i]];
      } else {
        remaining := remaining + [context[i]];
      }
    }
  }

  /** One round of the outer search. */
  method Try(context: seq<ModelContextItem>, candidates: seq<nat>, budget: nat, count: nat) returns (plan: Option<Plan>)
    requires candidates == Candidates(context) != [] && count <= |candidates|
    ensures plan == Attempt(context, budget, count)
  {
    var dropped, remaining := Split(context, candidates, count);
    var summary := SummarizeItems(dropped, SummaryCharBudget(budget));
    var fitting := HalveUntilFit(remaining, candidates[0], summary, budget);
    if fitting.None? {
      return None;
    }
    plan := Some(Plan(candidates[0], remaining, ItemIds(dropped), fitting.value));
  }

  /** The plan of the first `count` that can be enough. */
  ghost predicate IsLeastPlan(context: seq<ModelContextItem>, budget: nat, count: nat, plan: Plan) {
    && 1 <= count <= |Candidates(context)| && Attempt(context, budget, count) == Some(plan)
    && TooFew(context, budget, count)
  }

  /** The context is too large, and no number of dropped items, under no summary tried, makes it fit. */
  ghost predicate NoPlanFits(context: seq<ModelContextItem>, budget: nat) {
    && Tokens(context) > budget
    && (Candidates(context) != [] ==> TooFew(context, budget, |Candidates(context)| + 1))
  }

  lemma LeastPlanFits(context: seq<ModelContextItem>, budget: nat, count: nat, plan: Plan)
    requires Candidates(context) != [] && IsLeastPlan(context, budget, count, plan)
    ensures !NoPlanFits(context, budget)
  {
    AttemptIffCanFit(context, budget, count);
  }

  /** No compaction exactly when the context fits as it is. Otherwise the plan drops the fewest items that
      can be enough, under the longest summary that then fits; an error means exactly that no number of
      items is. */
  method Compact(context: seq<ModelContextItem>, budget: nat)
    returns (r: Result<Option<Plan>, CompactionError>, ghost count: nat)
    ensures r == Success(None) <==> Tokens(context) <= budget
    ensures r.Success? && r.value.Some? ==> IsLeastPlan(context, budget, count, r.value.value)
    ensures r.Failure? <==> NoPlanFits(context, budget)
  {
    count := 0;
    var estimated := EstimateContextTokens(context);
    if estimated <= budget {
      return Success(None), 0;
    }
    var candidates := FindCandidates(context);
    if candidates == [] {
      return Failure(NoCompactableContext(estimated, budget)), 0;
    }
    for n := 1 to |candidates| + 1
      invariant candidates == Candidates(context) != [] && TooFew(context, budget, n)
    {
      var plan := Try(context, candidates, budget, n);
      if plan.Some? {
        LeastPlanFits(context, budget, n, plan.value);
        return Success(plan), n;
      }
      OneMoreIsTooFew(context, budget, n);
    }
    r := Failure(NoCompactableContext(estimated, budget));
  }

  /** The context a plan leads to, once its summary carries the checkpoint's identifier. */
  function Compacted(plan: Plan, id: EventId): seq<ModelContextItem> {
    InsertItem(plan.remaining, plan.summaryPosition, SummaryItem(id, plan.summary))
  }

  /** A plan fits the budget, keeps everything pinned, and accounts for every item. */
  lemma PlanIsGood(context: seq<ModelContextItem>, budget: nat, count: nat, id: EventId)
    requires 1 <= count <= |Candidates(context)| && Attempt(context, budget, count).Some?
    ensures var plan := Attempt(context, budget, count).value;
            && Tokens(Compacted(plan, id)) <= budget
            && plan.dropped == ItemIds(Dropped(context, count)) && |plan.dropped| == count
            && multiset(Dropped(context, count)) + multiset(plan.remaining) == multiset(context)
            && Subsequence(Dropped(context, count), context) && Subsequence(plan.remaining, context)
            && (forall item :: item in Dropped(context, count) ==> IsDroppable(item))
            && (forall item :: item in context && !IsDroppable(item) ==> item in plan.remaining)
  {
    var plan := Attempt(context, budget, count).value;
    FirstFitIsFirst(plan.remaining, plan.summaryPosition, SummaryOf(Dropped(context, count), SummaryCharBudget(budget)),
                    budget);
    FitsUnderAnyId(plan.remaining, plan.summaryPosition, plan.summary, budget, id);
    assert context[..|context|] == context;
    DropPartitions(context, count, |context|);
    DropsKeepOrder(context, count, |context|);
    OnlyDroppablesDropped(context, count, |context|);
    forall item | item in context && !IsDroppable(item)
      ensures item in plan.remaining
    {
      RestRemains(context, count, |context|, item);
    }
  }

  // --- Fitting a request ------------------------------------------------------------------------------

  const DEFAULT_CONTEXT_WINDOW: nat := 32_768
  const DEFAULT_RESERVED_OUTPUT: nat := 4_096
  const SAFETY_MARGIN: nat := 512

  function PositiveOr(value: Option<nat>, default_: nat): nat {
    if value.Some? && value.value > 0 then value.value else default_
  }

  /** What is left of the window for the context. */
  function InputBudget(window: Option<nat>, maxOutput: Option<nat>, fixedTokens: nat): nat {
    Minus(Minus(Minus(PositiveOr(window, DEFAULT_CONTEXT_WINDOW), PositiveOr(maxOutput, DEFAULT_RESERVED_OUTPUT)),
                SAFETY_MARGIN), fixedTokens)
  }

  datatype FitError = BudgetTooSmall | Uncompactable(error: CompactionError) | DidNotConverge

  /** Compacts a context that is too large, and says what to record: everything covered so far and what
      the plan drops, under the plan's summary. */
  method CompactOnce(context: seq<ModelContextItem>, budget: nat, log: seq<Event>)
    returns (r: Result<Option<(Plan, ControlEvent)>, FitError>)
    ensures r == Success(None) <==> Tokens(context) <= budget
    ensures r.Success? && r.value.Some? ==>
              var (plan, control) := r.value.value;
              && (forall id :: Tokens(Compacted(plan, id)) <= budget)
              && control.ContextCompacted? && control.summary == plan.summary
              && KeepsDiscipline(log, control)
              && forall id :: id in control.dropped <==> id in Checkpoints.Coverage(log) || id in plan.dropped
    ensures r.Failure? <==> NoPlanFits(context, budget)
    ensures r.Failure? ==> r.error.Uncompactable?
  {
    ghost var count;
    var compacted;
    compacted, count := Compact(context, budget);
    if compacted.Failure? {
      return Failure(Uncompactable(compacted.error));
    }
    if compacted.value.None? {
      return Success(None);
    }
    var plan := compacted.value.value;
    var control := CompactionCheckpoint(log, plan.dropped, plan.summary);
    forall id
      ensures Tokens(Compacted(plan, id)) <= budget
    {
      PlanIsGood(context, budget, count, id);
    }
    r := Success(Some((plan, control)));
  }

  /** The one checkpoint a call may record: it keeps the discipline and stands among what is now shown. */
  ghost predicate Recorded(log: seq<Event>, shown: seq<ModelContextItem>, e: Event) {
    && Checkpoints.IsCheckpoint(e)
    && (e.id !in Ids(log) ==> Checkpoints.Proper(log, e))
    && SummaryItem(e.id, e.payload.control.summary) in shown
  }

  /** Compacts before a model call and records each checkpoint in the log. The loop allows eight rounds;
      one is always enough, so it never gives up, and the result fits. */
  method FitContextToBudget(context: seq<ModelContextItem>, window: Option<nat>, maxOutput: Option<nat>,
                            fixedTokens: nat,
                            log: seq<Event>, record: (nat, ControlEvent) -> Event)
    returns (r: Result<seq<ModelContextItem>, FitError>, written: seq<Event>)
    requires forall n, control :: record(n, control).payload == Control(control)
    ensures |written| <= 1 && r != Failure(DidNotConverge)
    ensures r == Failure(BudgetTooSmall) <==> InputBudget(window, maxOutput, fixedTokens) == 0
    ensures r.Failure? && r.error.Uncompactable? <==>
              InputBudget(window, maxOutput, fixedTokens) != 0
                && NoPlanFits(context, InputBudget(window, maxOutput, fixedTokens))
    ensures r.Success? ==> Tokens(r.value) <= InputBudget(window, maxOutput, fixedTokens)
    ensures r.Success? && written == [] ==> r.value == context
    ensures r.Success? && written != [] ==>
              Tokens(context) > InputBudget(window, maxOutput, fixedTokens) && Recorded(log, r.value, written[0])
    ensures r.Failure? ==> written == []
  {
    var budget := InputBudget(window, maxOutput, fixedTokens);
    written := [];
    if budget == 0 {
      return Failure(BudgetTooSmall), [];
    }
    var current := context;
    r := Failure(DidNotConverge);
    for round := 0 to 8
      invariant round <= 1
      invariant round == 0 ==> current == context && written == []
      invariant round == 1 ==>
                  |written| == 1 && Tokens(current) <= budget < Tokens(context) && Recorded(log, current, written[0])
      invariant round == 1 ==> !NoPlanFits(context, budget)
    {
      var compacted := CompactOnce(current, budget, log + written);
      if compacted.Failure? {
        return Failure(compacted.error), written;
      }
      if compacted.value.None? {
        return Success(current), written;
      }
      var (plan, control) := compacted.value.value;
      var event := record(round, control);
      assert log + [] == log;
      InsertedIsThere(plan.remaining, plan.summaryPosition, SummaryItem(event.id, plan.summary));
      current := Compacted(plan, event.id);
      written := written + [event];
    }
    assert false;
  }

  lemma InsertedIsThere(context: seq<ModelContextItem>, position: nat, item: ModelContextItem)
    ensures item in InsertItem(context, position, item)
  {}
}
