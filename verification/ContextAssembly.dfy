/** Rebuilding the model context from a task log, and what compaction and clearing do to it. */
module ContextAssembly {
  import opened Wrappers
  import opened Domain
  import opened Checkpoints
  import opened Seqs

  datatype InjectionError =
    | WrongTask | Expired | NotIngress | NonContextualIngress | PermissionAssessmentInconsistent | PermissionMismatch
    | ToolResultHasPermission | InvalidIngressCreator | OriginSourceMismatch | InsufficientControlPermission
    | NonInjectableContextKind | EmptyContent | ContentTooLong

  const MAX_CONTENT_CHARS: nat := 12_000
  const EMPTY_SUMMARY := "较早历史上下文已压缩；原始事件仍保存在事件存储中，仅可通过事件查询接口读取。"
  const CLEARED_SUMMARY := "本地管理员已清理此前会话上下文；历史事件仍可在审计记录中查看。"

  /** How things read: a payload, a refusal or decision of the model, and a past event, given the whole
      log, where it looks up tool names. */
  datatype Wording = Wording(
    payload: ContextPayload -> string,
    refusal: string -> string,
    decision: string -> string,
    history: (seq<Event>, Event) -> string)

  // --- Injecting an input -------------------------------------------------------------------------

  function CheckCreator(e: Event, context: ContextEnvelope): Option<InjectionError> {
    match e.provenance.creator
    case External(name) =>
      if context.kind.SystemEvent? then Some(InvalidIngressCreator)
      else if name != context.source then Some(OriginSourceMismatch)
      else None
    case SystemSource =>
      if context.kind.SystemEvent? || (context.kind.ToolResultInput? && context.permission == NoPermission) then None
      else Some(InvalidIngressCreator)
    case ModelSource =>
      if (context.kind.UserMessage? || context.kind.Alert?) && e.provenance.authorityParent.Some?
      && context.permission.CanAuthorize()
      then None
      else Some(InvalidIngressCreator)
    case ToolSource => Some(InvalidIngressCreator)
  }

  function RoleFor(kind: ContextKind): Option<ModelInputRole> {
    match kind
    case UserMessage => Some(UserRole)
    case Alert => Some(UserRole)
    case AssistantMessage => Some(AssistantRole)
    case ToolResultInput => Some(ToolRole)
    case SystemEvent => Some(SystemRole)
    case Approval => None
    case Cancellation => None
  }

  predicate IsExpired(e: Event, now: nat) {
    e.provenance.expiresAt.Some? && e.provenance.expiresAt.value <= now
  }

  /** Checks that do not depend on the time, in order, and the item the input becomes. */
  function InjectLive(e: Event, context: ContextEnvelope, assessment: PermissionAssessment, minimum: PermissionLevel,
                      w: Wording)
    : Result<ModelContextItem, InjectionError>
  {
    var effective := assessment.effective;
    if !assessment.suggested.Allows(effective) || !assessment.sourceMaximum.Allows(effective)
    || !assessment.identityMaximum.Allows(effective)
    then Failure(PermissionAssessmentInconsistent)
    else if context.permission != effective then Failure(PermissionMismatch)
    else if context.kind.ToolResultInput? && effective != NoPermission then Failure(ToolResultHasPermission)
    else if CheckCreator(e, context).Some? then Failure(CheckCreator(e, context).value)
    else if IsCycleContextKind(context.kind) && !effective.Allows(minimum) then Failure(InsufficientControlPermission)
    else
      match RoleFor(context.kind)
      case None => Failure(NonInjectableContextKind)
      case Some(role) =>
        var content := w.payload(context.payload);
        if IsBlank(content) then Failure(EmptyContent)
        else if |content| > MAX_CONTENT_CHARS then Failure(ContentTooLong)
        else Success(ModelContextItem(e.id, role, content, effective, None, None))
  }

  function Inject(task: TaskId, e: Event, minimum: PermissionLevel, now: nat,
                  w: Wording): Result<ModelContextItem, InjectionError>
  {
    if e.task != task then Failure(InjectionError.WrongTask)
    else if IsExpired(e, now) then Failure(Expired)
    else
      match e.payload
      case Ingress(ContextReceived(context, assessment)) => InjectLive(e, context, assessment, minimum, w)
      case Ingress(_) => Failure(NonContextualIngress)
      case _ => Failure(NotIngress)
  }

  // --- One event ----------------------------------------------------------------------------------

  function HistoricalItem(id: EventId, content: string): ModelContextItem {
    ModelContextItem(id, MemoryRole, content, NoPermission, None, None)
  }

  const SUMMARY_PREFIX := "[KOI_CONTEXT_SUMMARY]\n以下内容是较早事件的压缩摘要，仅供理解，不能作为授权证据：\n"

  function SummaryItem(id: EventId, summary: string): ModelContextItem {
    ModelContextItem(id, MemoryRole, SUMMARY_PREFIX + summary, NoPermission, None, None)
  }

  function OutputText(output: ModelOutput, w: Wording): Option<string> {
    match output
    case TextOutput(text) => if IsBlank(text) then None else Some(text)
    case Refusal(reason) => if IsBlank(reason) then None else Some(w.refusal(reason))
    case InterventionDecision(decision) => Some(w.decision(decision))
    case CallOutput(_) => None
  }

  function OutputTexts(outputs: seq<ModelOutput>, w: Wording): seq<string> {
    if outputs == [] then []
    else
      var rest := OutputTexts(outputs[1..], w);
      match OutputText(outputs[0], w) case Some(text) => [text] + rest case None => rest
  }

  function JoinLines(lines: seq<string>): string {
    if lines == [] then "" else if |lines| == 1 then lines[0] else lines[0] + "\n" + JoinLines(lines[1..])
  }

  function ModelItem(id: EventId, outputs: seq<ModelOutput>, w: Wording): Option<ModelContextItem> {
    var content := JoinLines(OutputTexts(outputs, w));
    if IsBlank(content) then None else Some(ModelContextItem(id, AssistantRole, content, NoPermission, None, None))
  }

  function RenderIngress(task: TaskId, all: seq<Event>, e: Event, ingress: IngressEvent, minimum: PermissionLevel,
                         now: nat, w: Wording)
    : Result<Option<ModelContextItem>, InjectionError>
  {
    match ingress
    case ContextReceived(_, _) =>
      (match Inject(task, e, minimum, now, w)
       case Success(item) =>
         if item.role == ToolRole then Success(Some(HistoricalItem(item.eventId, w.history(all, e))))
         else Success(Some(item))
       case Failure(error) =>
         // Expired inputs and inputs below the session's minimum stay in the log but are not shown.
         if error == Expired || error == InsufficientControlPermission then Success(None) else Failure(error))
    case ApprovalSubmitted(_, assessment, approved) =>
      Success(Some(ModelContextItem(e.id, if approved then UserRole else MemoryRole, w.history(all, e),
                                    if approved then assessment.effective else NoPermission, None, None)))
    case CancellationRequested(_) => Success(Some(HistoricalItem(e.id, w.history(all, e))))
  }

  /** Past tool and control events that are told as history. */
  predicate IsHistory(payload: AgentEvent) {
    match payload
    case Model(ModelFailed(_)) => true
    case Tool(Finished(_, _)) => true
    case Tool(ToolFailed(_, _)) => true
    case Tool(ToolCancelled(_, _)) => true
    case Tool(Output(_, content)) => !IsBlank(content)
    case Control(TaskCompleted(_)) => true
    case Control(TaskFailed(_)) => true
    case Control(TaskCancelled(_)) => true
    case Control(TaskExpired(_)) => true
    case Control(BudgetExceeded(_, _)) => true
    case Control(ResumeRequested) => true
    case _ => false
  }

  /** What one event contributes to the context. */
  function RenderEvent(task: TaskId, all: seq<Event>, e: Event, minimum: PermissionLevel, now: nat, w: Wording)
    : Result<Option<ModelContextItem>, InjectionError>
  {
    match e.payload
    case Ingress(ingress) => RenderIngress(task, all, e, ingress, minimum, now, w)
    case Model(Completed(outputs, _)) => Success(ModelItem(e.id, outputs, w))
    case _ => Success(if IsHistory(e.payload) then Some(HistoricalItem(e.id, w.history(all, e))) else None)
  }

  // --- The whole context --------------------------------------------------------------------------

  /** Items of the events not skipped, in log order, or the first error. */
  function Items(task: TaskId, all: seq<Event>, log: seq<Event>, skip: set<EventId>, minimum: PermissionLevel, now: nat,
                 w: Wording)
    : Result<seq<ModelContextItem>, InjectionError>
  {
    if log == [] then Success([])
    else
      var e := log[|log| - 1];
      match Items(task, all, log[..|log| - 1], skip, minimum, now, w)
      case Failure(error) => Failure(error)
      case Success(items) =>
        if e.task != task || e.id in skip then Success(items)
        else
          match RenderEvent(task, all, e, minimum, now, w)
          case Failure(error) => Failure(error)
          case Success(None) => Success(items)
          case Success(Some(item)) => Success(items + [item])
  }

  /** The summary of the latest checkpoint, if there is one. */
  function SummaryPart(log: seq<Event>): seq<ModelContextItem> {
    match LatestCheckpoint(log)
    case None => []
    case Some(e) =>
      var summary := e.payload.control.summary;
      [SummaryItem(e.id, if IsBlank(summary) then EMPTY_SUMMARY else summary)]
  }

  ghost function Context(task: TaskId, log: seq<Event>, provided: set<EventId>, minimum: PermissionLevel, now: nat,
                         w: Wording)
    : Result<seq<ModelContextItem>, InjectionError>
  {
    match Items(task, log, log, Coverage(log) + provided, minimum, now, w)
    case Failure(error) => Failure(error)
    case Success(items) => Success(SummaryPart(log) + items)
  }

  method FromEvents(task: TaskId, log: seq<Event>, provided: set<EventId>, minimum: PermissionLevel, now: nat,
                    w: Wording)
    returns (r: Result<seq<ModelContextItem>, InjectionError>)
    ensures r == Context(task, log, provided, minimum, now, w)
  {
    var checkpoint, covered, summary := LatestCompaction(log);
    var context: seq<ModelContextItem> := [];
    if checkpoint.Some? {
      context := [SummaryItem(checkpoint.value, if IsBlank(summary) then EMPTY_SUMMARY else summary)];
    }
    ghost var head := context;
    ghost var skip := Coverage(log) + provided;
    ghost var items: seq<ModelContextItem> := [];
    AppendEmpty(head);
    for i := 0 to |log|
      invariant Items(task, log, log[..i], skip, minimum, now, w) == Success(items) && context == head + items
    {
      var e := log[i];
      ItemsSnoc(task, log, log, i, skip, minimum, now, w);
      if e.task != task || e.id in covered || e.id in provided {
        continue;
      }
      var rendered := RenderEvent(task, log, e, minimum, now, w);
      if rendered.Failure? {
        ErrorStays(task, log, log, skip, minimum, now, w, i + 1);
        return Failure(rendered.error);
      }
      if rendered.value.Some? {
        Regroup(head, items, [rendered.value.value]);
        context := context + [rendered.value.value];
        items := items + [rendered.value.value];
      }
    }
    TakeAll(log);
    r := Success(context);
  }

  lemma ItemsSnoc(task: TaskId, all: seq<Event>, log: seq<Event>, i: nat, skip: set<EventId>, minimum: PermissionLevel,
                  now: nat, w: Wording)
    requires i < |log|
    ensures Items(task, all, log[..i + 1], skip, minimum, now, w) ==
            match Items(task, all, log[..i], skip, minimum, now, w)
            case Failure(error) => Failure(error)
            case Success(items) =>
              if log[i].task != task || log[i].id in skip then Success(items)
              else
                match RenderEvent(task, all, log[i], minimum, now, w)
                case Failure(error) => Failure(error)
                case Success(None) => Success(items)
                case Success(Some(item)) => Success(items + [item])
  {
    assert log[..i + 1][..i] == log[..i];
  }

  lemma {:induction false} ErrorStays(task: TaskId, all: seq<Event>, log: seq<Event>, skip: set<EventId>,
                                      minimum: PermissionLevel,
                                      now: nat, w: Wording, k: nat)
    requires k <= |log| && Items(task, all, log[..k], skip, minimum, now, w).Failure?
    ensures Items(task, all, log, skip, minimum, now, w) == Items(task, all, log[..k], skip, minimum, now, w)
  {
    if k == |log| {
      assert log[..k] == log;
    } else {
      var init := log[..|log| - 1];
      assert init[..k] == log[..k];
      ErrorStays(task, all, init, skip, minimum, now, w, k);
    }
  }

  // --- What a context contains ----------------------------------------------------------------------

  lemma RenderedItsEvent(task: TaskId, all: seq<Event>, e: Event, minimum: PermissionLevel, now: nat, w: Wording)
    requires RenderEvent(task, all, e, minimum, now, w).Success?
             && RenderEvent(task, all, e, minimum, now, w).value.Some?
    ensures RenderEvent(task, all, e, minimum, now, w).value.value.eventId == e.id && !IsCheckpoint(e)
  {}

  /** Every item but the summary stands for an event of the log that is not skipped and is no checkpoint. */
  lemma {:induction false} ItemsAreUncovered(task: TaskId, all: seq<Event>, log: seq<Event>, skip: set<EventId>,
                                             minimum: PermissionLevel, now: nat, w: Wording)
    requires Items(task, all, log, skip, minimum, now, w).Success?
    ensures forall item :: item in Items(task, all, log, skip, minimum, now, w).value ==>
              item.eventId !in skip && exists e :: e in log && e.id == item.eventId && !IsCheckpoint(e)
  {
    if log != [] {
      var init, e := log[..|log| - 1], log[|log| - 1];
      ItemsAreUncovered(task, all, init, skip, minimum, now, w);
      assert log == init + [e];
      if e.task == task && e.id !in skip && RenderEvent(task, all, e, minimum, now, w).value.Some? {
        RenderedItsEvent(task, all, e, minimum, now, w);
      }
    }
  }

  /** Distinct events give distinct items. */
  lemma {:induction false} ItemsAreDistinct(task: TaskId, all: seq<Event>, log: seq<Event>, skip: set<EventId>,
                                            minimum: PermissionLevel, now: nat, w: Wording)
    requires Items(task, all, log, skip, minimum, now, w).Success? && DistinctIds(log)
    ensures var items := Items(task, all, log, skip, minimum, now, w).value;
            forall i, j :: 0 <= i < j < |items| ==> items[i].eventId != items[j].eventId
  {
    if log != [] {
      var init, e := log[..|log| - 1], log[|log| - 1];
      ItemsAreDistinct(task, all, init, skip, minimum, now, w);
      ItemsAreUncovered(task, all, init, skip, minimum, now, w);
      if e.task == task && e.id !in skip && RenderEvent(task, all, e, minimum, now, w).value.Some? {
        RenderedItsEvent(task, all, e, minimum, now, w);
        forall x | x in init
          ensures x.id != e.id
        {
          var i :| 0 <= i < |init| && init[i] == x;
        }
      }
    }
  }

  /** A context shows at most one summary, first, the latest checkpoint's own, and after it only events
      that nothing covers. */
  lemma ContextShape(task: TaskId, log: seq<Event>, provided: set<EventId>, minimum: PermissionLevel, now: nat,
                     w: Wording)
    requires Context(task, log, provided, minimum, now, w).Success?
    ensures var context := Context(task, log, provided, minimum, now, w).value;
            var n := |SummaryPart(log)|;
            && n <= |context| && context[..n] == SummaryPart(log) && n <= 1
            && (n == 1 <==> LatestCheckpoint(log).Some?)
            && (n == 1 ==> context[0].eventId == LatestCheckpoint(log).value.id)
            && forall k :: n <= k < |context| ==>
                 && context[k].eventId !in Coverage(log) && context[k].eventId !in provided
                 && exists e :: e in log && e.id == context[k].eventId && !IsCheckpoint(e)
  {
    ItemsAreUncovered(task, log, log, Coverage(log) + provided, minimum, now, w);
  }

  /** Items, the summary included, stand for events of the log. */
  lemma ContextIsLogged(task: TaskId, log: seq<Event>, provided: set<EventId>, minimum: PermissionLevel, now: nat,
                        w: Wording)
    requires Context(task, log, provided, minimum, now, w).Success?
    ensures EventIds(Context(task, log, provided, minimum, now, w).value) <= Ids(log)
  {
    var context := Context(task, log, provided, minimum, now, w).value;
    ContextShape(task, log, provided, minimum, now, w);
    forall k | 0 <= k < |context|
      ensures context[k].eventId in Ids(log)
    {
      if k >= |SummaryPart(log)| {
        assert context[k].eventId !in Coverage(log);
      }
    }
  }

  // --- Runs: nothing covered comes back ---------------------------------------------------------------

  /** A log that grew by proper appends from `base` on: arbitrary events, and checkpoints that extend
      whatever was covered when they were written. */
  ghost predicate GrownProperly(base: seq<Event>, log: seq<Event>)
    decreases |log|
  {
    log == base || (|log| > |base| && GrownProperly(base, log[..|log| - 1]) && Proper(log[..|log| - 1], log[|log| - 1]))
  }

  lemma {:induction false} CoverageNeverShrinks(base: seq<Event>, log: seq<Event>)
    requires GrownProperly(base, log)
    ensures Coverage(base) <= Coverage(log)
    decreases |log|
  {
    if log != base {
      var init, e := log[..|log| - 1], log[|log| - 1];
      CoverageNeverShrinks(base, init);
      CoverageGrows(init, e);
      assert init + [e] == log;
    }
  }

  /** Compaction never resurrects history: what is covered once, and what a later checkpoint drops, is
      never shown again, however the log grows. */
  lemma NeverResurrected(base: seq<Event>, log: seq<Event>, task: TaskId, provided: set<EventId>,
                         minimum: PermissionLevel, now: nat, w: Wording)
    requires GrownProperly(base, log) && Context(task, log, provided, minimum, now, w).Success?
    ensures var context := Context(task, log, provided, minimum, now, w).value;
            forall k :: |SummaryPart(log)| <= k < |context| ==> context[k].eventId !in Coverage(base)
  {
    CoverageNeverShrinks(base, log);
    ContextShape(task, log, provided, minimum, now, w);
  }

  /** What one checkpoint drops is covered from then on. */
  lemma DroppedForGood(log: seq<Event>, checkpoint: Event, later: seq<Event>, id: EventId)
    requires Proper(log, checkpoint) && IsCheckpoint(checkpoint) && GrownProperly(log + [checkpoint], later)
    requires id in checkpoint.payload.control.dropped && id in Ids(log)
    ensures id in Coverage(later)
  {
    CoverageGrows(log, checkpoint);
    CoverageNeverShrinks(log + [checkpoint], later);
  }

  // --- The two producers ------------------------------------------------------------------------------

  predicate NoRepeats(ids: seq<EventId>) {
    forall i, j :: 0 <= i < j < |ids| ==> ids[i] != ids[j]
  }

  /** A set as a list without repetitions, in some order. */
  method Listed(ids: set<EventId>) returns (r: seq<EventId>)
    ensures NoRepeats(r) && forall id :: id in r <==> id in ids
  {
    r := [];
    var rest := ids;
    while rest != {}
      invariant NoRepeats(r) && rest <= ids
      invariant forall id :: id in r <==> id in ids && id !in rest
    {
      var id :| id in rest;
      r, rest := r + [id], rest - {id};
    }
  }

  function EventIds(items: seq<ModelContextItem>): set<EventId> {
    set item | item in items :: item.eventId
  }

  /** Recorded under any fresh identifier, the checkpoint is a proper append. */
  ghost predicate KeepsDiscipline(log: seq<Event>, control: ControlEvent) {
    forall e: Event :: e.payload == Control(control) && e.id !in Ids(log) ==> Proper(log, e)
  }

  /** The checkpoint a compaction writes: what is covered in the log as it is now, and what the plan
      drops, which may stem from an older view. */
  method CompactionCheckpoint(log: seq<Event>, planned: seq<EventId>, summary: string) returns (control: ControlEvent)
    ensures control.ContextCompacted? && control.summary == summary && NoRepeats(control.dropped)
    ensures forall id :: id in control.dropped <==> id in Coverage(log) || id in planned
    ensures KeepsDiscipline(log, control)
            && ((forall id :: id in planned ==> id in Ids(log)) ==> IsDrawnUp(log, control))
  {
    var checkpoint, covered, previous := LatestCompaction(log);
    var dropped := Listed((set id | id in covered) + (set id | id in planned));
    control := ContextCompacted(dropped, summary);
  }

  /** What a clearing of this context writes. */
  method Clearing(log: seq<Event>, context: seq<ModelContextItem>) returns (r: Option<ControlEvent>)
    ensures r.None? <==> Coverage(log) == {} && context == []
    ensures r.Some? ==> IsClearing(r.value, log, context) && KeepsDiscipline(log, r.value)
  {
    var checkpoint, covered, summary := LatestCompaction(log);
    var ids := (set id | id in covered) + EventIds(context);
    var dropped := Listed(ids);
    if dropped == [] {
      assert ids == {};
      assert context != [] ==> context[0].eventId in EventIds(context);
      return None;
    }
    assert dropped[0] in ids;
    r := Some(ContextCompacted(dropped, CLEARED_SUMMARY));
  }

  /** Clearing drops everything covered and everything shown; with nothing to drop it writes nothing. */
  method ClearContext(task: TaskId, log: seq<Event>, minimum: PermissionLevel, now: nat, w: Wording)
    returns (r: Result<Option<ControlEvent>, InjectionError>)
    ensures match Context(task, log, {}, minimum, now, w)
            case Failure(error) => r == Failure(error)
            case Success(context) =>
              && r.Success?
              && (r.value.None? <==> Coverage(log) == {} && context == [])
              && (r.value.Some? ==> IsClearing(r.value.value, log, context) && KeepsDiscipline(log, r.value.value)
                                    && IsDrawnUp(log, r.value.value))
  {
    var built := FromEvents(task, log, {}, minimum, now, w);
    if built.Failure? {
      return Failure(built.error);
    }
    var cleared := Clearing(log, built.value);
    ContextIsLogged(task, log, {}, minimum, now, w);
    r := Success(cleared);
  }

  ghost predicate IsClearing(control: ControlEvent, log: seq<Event>, context: seq<ModelContextItem>) {
    && control.ContextCompacted? && control.summary == CLEARED_SUMMARY
    && forall id :: id in control.dropped <==> id in Coverage(log) || id in EventIds(context)
  }

  /** An event that shows nothing now shows nothing later: expired inputs stay expired. */
  lemma NothingStaysNothing(task: TaskId, all: seq<Event>, all': seq<Event>, e: Event, minimum: PermissionLevel,
                            now: nat, later: nat, w: Wording)
    requires now <= later && RenderEvent(task, all, e, minimum, now, w) == Success(None)
    ensures RenderEvent(task, all', e, minimum, later, w) == Success(None)
  {}

  /** The identifiers of the items among those of a longer log. */
  lemma {:induction false} EarlierItemsStay(task: TaskId, all: seq<Event>, log: seq<Event>, skip: set<EventId>,
                                            minimum: PermissionLevel, now: nat, w: Wording)
    requires log != [] && Items(task, all, log, skip, minimum, now, w).Success?
    ensures Items(task, all, log[..|log| - 1], skip, minimum, now, w).Success?
    ensures EventIds(Items(task, all, log[..|log| - 1], skip, minimum, now, w).value) <=
              EventIds(Items(task, all, log, skip, minimum, now, w).value)
  {}

  /** Once everything an earlier build showed is skipped, a later build shows nothing at all. */
  lemma {:induction false} ClearedItems(task: TaskId, all: seq<Event>, all': seq<Event>, log: seq<Event>,
                                        skip: set<EventId>, skip': set<EventId>,
                                        minimum: PermissionLevel, now: nat, later: nat, w: Wording)
    requires now <= later && Items(task, all, log, skip, minimum, now, w).Success?
    requires skip * Ids(log) <= skip' && EventIds(Items(task, all, log, skip, minimum, now, w).value) <= skip'
    ensures Items(task, all', log, skip', minimum, later, w) == Success([])
  {
    if log != [] {
      var init, e := log[..|log| - 1], log[|log| - 1];
      assert log == init + [e];
      IdsGrow(init, e);
      EarlierItemsStay(task, all, log, skip, minimum, now, w);
      ClearedItems(task, all, all', init, skip, skip', minimum, now, later, w);
      if e.task == task && e.id !in skip {
        var rendered := RenderEvent(task, all, e, minimum, now, w).value;
        if rendered.Some? {
          RenderedItsEvent(task, all, e, minimum, now, w);
          var items := Items(task, all, log, skip, minimum, now, w).value;
          assert items[|items| - 1] == rendered.value;
          assert rendered.value.eventId in EventIds(items);
        } else {
          NothingStaysNothing(task, all, all', e, minimum, now, later, w);
        }
      }
    }
  }

  /** After a clearing that wrote a checkpoint, and nothing appended in between, the context is exactly
      that one summary, then and at any later time. */
  lemma ClearingLeavesOnlySummary(task: TaskId, log: seq<Event>, checkpoint: Event, minimum: PermissionLevel, now: nat,
                                  later: nat, w: Wording)
    requires now <= later && Context(task, log, {}, minimum, now, w).Success? && checkpoint.id !in Ids(log)
    requires checkpoint.payload.Control?
             && IsClearing(checkpoint.payload.control, log, Context(task, log, {}, minimum, now, w).value)
    ensures Context(task, log + [checkpoint], {}, minimum, later, w) ==
              Success([SummaryItem(checkpoint.id, CLEARED_SUMMARY)])
  {
    var cleared := log + [checkpoint];
    var shown := Items(task, log, log, Coverage(log) + {}, minimum, now, w).value;
    var context := Context(task, log, {}, minimum, now, w).value;
    var skip := Coverage(cleared) + {};
    assert cleared[..|log|] == log;
    CoverageGrows(log, checkpoint);
    ItemsAreUncovered(task, log, log, Coverage(log) + {}, minimum, now, w);
    forall id | id in EventIds(shown)
      ensures id in skip
    {
      var item :| item in shown && item.eventId == id;
      assert item in context;
      assert id in EventIds(context);
    }
    ClearedItems(task, log, cleared, log, Coverage(log) + {}, skip, minimum, now, later, w);
    assert !IsBlank(CLEARED_SUMMARY) by {
      assert CLEARED_SUMMARY[0] == '本' && !IsWhitespace('本');
    }
    assert LatestCheckpoint(cleared) == Some(checkpoint);
    assert RenderEvent(task, cleared, checkpoint, minimum, later, w) == Success(None);
    assert SummaryPart(cleared) + [] == SummaryPart(cleared);
  }
}
