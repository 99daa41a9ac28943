/** Events, permissions and the task projection: the vocabulary every other module speaks. */
module Domain {
  import opened Wrappers

  /** Event and task identifiers are opaque; only equality (and, for sorting, some order) matters. */
  type EventId = nat
  type TaskId = nat

  /** The main session: the all-zero identifier. */
  const MAIN: TaskId := 0

  /** The Unicode White_Space property. */
  predicate IsWhitespace(c: char) {
    var n := c as int;
    || 0x09 <= n <= 0x0d || n == 0x20 || n == 0x85 || n == 0xa0 || n == 0x1680
    || 0x2000 <= n <= 0x200a || n == 0x2028 || n == 0x2029 || n == 0x202f || n == 0x205f || n == 0x3000
  }

  predicate IsControlChar(c: char) {
    c as int <= 0x1f || 0x7f <= c as int <= 0x9f
  }

  /** True when trimming leaves nothing. */
  predicate IsBlank(s: string) {
    forall c :: c in s ==> IsWhitespace(c)
  }

  function TrimStart(s: string): string {
    if s != [] && IsWhitespace(s[0]) then TrimStart(s[1..]) else s
  }

  function TrimEnd(s: string): string {
    if s != [] && IsWhitespace(s[|s| - 1]) then TrimEnd(s[..|s| - 1]) else s
  }

  function Trim(s: string): string {
    TrimEnd(TrimStart(s))
  }

  // --- Permissions and provenance -------------------------------------------------------------

  datatype PermissionLevel = NoPermission | User | Operator | Admin | System {
    function Rank(): nat {
      match this
      case NoPermission => 0
      case User => 1
      case Operator => 2
      case Admin => 3
      case System => 4
    }

    predicate CanAuthorize() {
      this != NoPermission
    }

    predicate Allows(required: PermissionLevel) {
      Rank() >= required.Rank()
    }
  }

  datatype PermissionAssessment = PermissionAssessment(
    suggested: PermissionLevel,
    sourceMaximum: PermissionLevel,
    identityMaximum: PermissionLevel,
    effective: PermissionLevel)

  datatype EventSource = SystemSource | ModelSource | ToolSource | External(name: string)

  datatype EventProvenance = EventProvenance(
    creator: EventSource,
    directPermission: Option<PermissionLevel>,
    authorityParent: Option<EventId>,
    expiresAt: Option<nat>)

  const SYSTEM_PROVENANCE := EventProvenance(SystemSource, Some(System), None, None)
  const TOOL_PROVENANCE := EventProvenance(ToolSource, None, None, None)

  function ModelProvenance(authorityParent: Option<EventId>): EventProvenance {
    EventProvenance(ModelSource, None, authorityParent, None)
  }

  // --- Events ---------------------------------------------------------------------------------

  datatype ContextKind =
    | UserMessage | Alert | Approval | Cancellation | ToolResultInput | AssistantMessage | SystemEvent

  datatype ContextPayload =
    | TextPayload(text: string)
    | AlertPayload(name: string, summary: string, labels: map<string, string>)
    | Structured(json: string)

  datatype ContextEnvelope = ContextEnvelope(
    kind: ContextKind,
    source: string,
    sourceInstance: string,
    nativeEventId: string,
    permission: PermissionLevel,
    payload: ContextPayload,
    causation: Option<EventId>)

  datatype IngressEvent =
    | ContextReceived(context: ContextEnvelope, assessment: PermissionAssessment)
    | ApprovalSubmitted(request: EventId, approvalAssessment: PermissionAssessment, approved: bool)
    | CancellationRequested(cancelReason: string)

  datatype ToolCall = ToolCall(
    name: string,
    arguments: string,
    providerCallId: Option<string>,
    authorityParent: Option<EventId>)

  datatype ModelOutput =
    | TextOutput(text: string)
    | CallOutput(call: ToolCall)
    | InterventionDecision(decision: string)
    | Refusal(reason: string)

  datatype Usage = Usage(input: nat, output: nat, cachedInput: nat, reasoning: nat)

  datatype ModelEvent =
    | CallStarted(contextEventIds: seq<EventId>)
    | Delta(sequence: nat, deltaContent: string)
    | Completed(outputs: seq<ModelOutput>, usage: Usage)
    | ModelFailed(modelError: string)

  datatype PolicyDecision = Allow | RequireApproval | Deny

  datatype ToolEvent =
    | Proposed(call: ToolCall)
    | Validated(proposal: EventId)
    | AuthorizationChecked(proposal: EventId, decision: PolicyDecision)
    | ApprovalRequested(proposal: EventId)
    | Started(proposal: EventId)
    | Output(started: EventId, content: string)
    | Finished(started: EventId, result: string)
    | ToolFailed(started: EventId, toolError: string)
    | ToolCancelled(started: EventId, toolReason: string)
    | NotificationSent(messageId: string)

  datatype TaskOperation =
    | CreateChild
    | InputChild(target: TaskId, message: string, authorityParent: EventId)
    | NameChild(target: TaskId, name: string)
    | DeleteChild(target: TaskId, reason: string)
    | ControlChild(target: TaskId, control: ControlEvent)
    | ResumeChild(target: TaskId)
    | CancelChild(target: TaskId, reason: string)

  datatype ControlEvent =
    | TaskCreated(trigger: Option<EventId>)
    | TaskQueued
    | PauseRequested(reason: string)
    | TaskPaused(reason: string)
    | ResumeRequested
    | TaskResumed
    | TaskNamed(name: string)
    | ModelSelected(provider: string, modelId: string)
    | MinimumControlPermissionChanged(minimum: PermissionLevel)
    | InputRejected(input: EventId, reason: string)
    | TaskOperationRequested(operation: TaskOperation)
    | TaskOperationAccepted(request: EventId, target: TaskId)
    | TaskOperationRejected(request: EventId, reason: string)
    | TaskCompleted(response: Option<string>)
    | TaskFailed(reason: string)
    | TaskCancelled(reason: string)
    | TaskExpired(reason: string)
    | BudgetExceeded(budget: nat, consumed: nat)
    | ContextCompacted(dropped: seq<EventId>, summary: string)
  {
    predicate IsTaskManagementOperation() {
      TaskOperationRequested? || TaskOperationAccepted? || TaskOperationRejected?
    }
  }

  datatype AgentEvent =
    | Ingress(ingress: IngressEvent)
    | Control(control: ControlEvent)
    | Model(model: ModelEvent)
    | Tool(tool: ToolEvent)

  datatype Event = Event(
    id: EventId,
    task: TaskId,
    sequence: nat,
    causation: Option<EventId>,
    provenance: EventProvenance,
    payload: AgentEvent)

  // --- Model context --------------------------------------------------------------------------

  datatype ModelInputRole = SystemRole | DeveloperRole | UserRole | AssistantRole | ToolRole | MemoryRole

  datatype ModelContextItem = ModelContextItem(
    eventId: EventId,
    role: ModelInputRole,
    content: string,
    permission: PermissionLevel,
    providerCallId: Option<string>,
    toolName: Option<string>)

  // --- The projection -------------------------------------------------------------------------

  datatype TaskStatus =
    | New | Created | Queued | Running | WaitingApproval | Pausing | Paused | Cancelling
    | CompletedStatus | FailedStatus | CancelledStatus | ExpiredStatus
  {
    predicate IsTerminal() {
      CompletedStatus? || FailedStatus? || CancelledStatus? || ExpiredStatus?
    }
  }

  datatype Projection = Projection(
    task: TaskId,
    status: TaskStatus,
    minimumControlPermission: PermissionLevel,
    title: Option<string>,
    selectedModel: Option<(string, string)>,
    lastSequence: nat,
    lastEventId: Option<EventId>,
    usage: Usage)

  datatype ProjectionError = WrongTask | UnexpectedSequence | TerminalTask | InvalidTransition | InvalidModelSelection

  function NewProjection(task: TaskId): Projection {
    Projection(task, New, User, None, None, 0, None, Usage(0, 0, 0, 0))
  }

  /** The status changes the projection allows; staying put is always allowed. */
  predicate CanMove(from: TaskStatus, to: TaskStatus) {
    || from == to
    || (from.IsTerminal() && to == Queued)
    || match from
       case New => to == Created
       case Created => to in {Queued, Running, CancelledStatus}
       case Queued => to in {Running, Pausing, Cancelling, CancelledStatus, ExpiredStatus}
       case Paused => to in {Queued, Running, Pausing, Cancelling, CancelledStatus, ExpiredStatus}
       case Running =>
         to in {WaitingApproval, Pausing, Paused, Cancelling, CompletedStatus, FailedStatus, CancelledStatus,
                ExpiredStatus}
       case WaitingApproval => to in {Running, Pausing, Paused, Cancelling, CancelledStatus, ExpiredStatus}
       case Pausing => to in {Paused, CancelledStatus, ExpiredStatus}
       case Cancelling => to in {CancelledStatus, FailedStatus, ExpiredStatus}
       case _ => false
  }

  function Move(p: Projection, to: TaskStatus): Result<Projection, ProjectionError> {
    if CanMove(p.status, to) then Success(p.(status := to)) else Failure(InvalidTransition)
  }

  predicate IsCycleContextKind(kind: ContextKind) {
    kind.UserMessage? || kind.Alert? || kind.SystemEvent?
  }

  predicate IsCycleInput(payload: AgentEvent) {
    payload.Ingress? && payload.ingress.ContextReceived? && IsCycleContextKind(payload.ingress.context.kind)
  }

  /** What a task in a terminal status still accepts. */
  predicate AcceptedWhenTerminal(task: TaskId, payload: AgentEvent) {
    || IsCycleInput(payload)
    || (payload.Control? &&
        (|| payload.control.TaskQueued?
         || payload.control.ContextCompacted?
         || payload.control.ModelSelected?
         || payload.control.MinimumControlPermissionChanged?
         || (task == MAIN && payload.control.IsTaskManagementOperation())))
  }

  predicate ValidModelComponent(value: string, maxLength: nat) {
    0 < |value| <= maxLength && forall c :: c in value ==> !IsWhitespace(c) && !IsControlChar(c)
  }

  function AddUsage(total: Usage, used: Usage): Usage {
    Usage(SaturatingAdd64(total.input, used.input), SaturatingAdd64(total.output, used.output),
          SaturatingAdd64(total.cachedInput, used.cachedInput), SaturatingAdd64(total.reasoning, used.reasoning))
  }

  function ApplyControl(p: Projection, control: ControlEvent): Result<Projection, ProjectionError> {
    if p.status == Pausing && (control.TaskCompleted? || control.TaskFailed? || control.BudgetExceeded?) then Success(p)
    else
      match control
      case TaskCreated(_) => Move(p, Created)
      case TaskQueued => Move(p, Queued)
      case ResumeRequested => Move(p, Queued)
      case PauseRequested(_) => Move(p, Pausing)
      case TaskPaused(_) => Move(p, Paused)
      case TaskResumed => Move(p, Running)
      case TaskNamed(name) => Success(p.(title := Some(name)))
      case ModelSelected(provider, modelId) =>
        if ValidModelComponent(provider, 128) && ValidModelComponent(modelId, 256)
        then Success(p.(selectedModel := Some((provider, modelId)))) else Failure(InvalidModelSelection)
      case MinimumControlPermissionChanged(minimum) => Success(p.(minimumControlPermission := minimum))
      case TaskOperationRequested(_) => Success(p)
      case TaskOperationAccepted(_, _) => Success(p)
      case TaskOperationRejected(_, _) => Success(p)
      case InputRejected(_, _) => Success(p)
      case ContextCompacted(_, _) => Success(p)
      case TaskCompleted(_) => Move(p, CompletedStatus)
      case TaskFailed(_) => Move(p, FailedStatus)
      case BudgetExceeded(_, _) => Move(p, FailedStatus)
      case TaskCancelled(_) => Move(p, CancelledStatus)
      case TaskExpired(_) => Move(p, ExpiredStatus)
  }

  function ApplyIngress(p: Projection, ingress: IngressEvent): Result<Projection, ProjectionError> {
    match ingress
    case ContextReceived(context, _) =>
      if p.status.IsTerminal() && IsCycleContextKind(context.kind) then Move(p, Queued) else Success(p)
    case CancellationRequested(_) => Move(p, Cancelling)
    case ApprovalSubmitted(_, _, _) => Success(p)
  }

  function ApplyModel(p: Projection, model: ModelEvent): Result<Projection, ProjectionError> {
    match model
    case CallStarted(_) => if p.status == Pausing then Success(p) else Move(p, Running)
    case Completed(_, usage) => Success(p.(usage := AddUsage(p.usage, usage)))
    case Delta(_, _) => Success(p)
    case ModelFailed(_) => Success(p)
  }

  function ApplyTool(p: Projection, tool: ToolEvent): Result<Projection, ProjectionError> {
    var waits := tool.ApprovalRequested? || (tool.AuthorizationChecked? && tool.decision == RequireApproval);
    if p.status == Pausing && (tool.Started? || waits) then Success(p)
    else if tool.Started? then Move(p, Running)
    else if waits then Move(p, WaitingApproval)
    else Success(p)
  }

  function ApplyPayload(p: Projection, payload: AgentEvent): Result<Projection, ProjectionError> {
    match payload
    case Control(control) => ApplyControl(p, control)
    case Ingress(ingress) => ApplyIngress(p, ingress)
    case Model(model) => ApplyModel(p, model)
    case Tool(tool) => ApplyTool(p, tool)
  }

  function NextSequence(p: Projection): nat {
    SaturatingAdd64(p.lastSequence, 1)
  }

  /** Accepts the next event of the projection's own task, or says why not. */
  function Apply(p: Projection, event: Event): (r: Result<Projection, ProjectionError>)
    ensures r.Success? ==>
              && event.task == p.task && event.sequence == NextSequence(p)
              && r.value.task == p.task && r.value.lastSequence == event.sequence
  {
    if event.task != p.task then Failure(WrongTask)
    else if event.sequence != NextSequence(p) then Failure(UnexpectedSequence)
    else if p.status.IsTerminal() && !AcceptedWhenTerminal(p.task, event.payload) then Failure(TerminalTask)
    else
      match ApplyPayload(p, event.payload)
      case Failure(error) => Failure(error)
      case Success(q) => Success(q.(lastSequence := event.sequence, lastEventId := Some(event.id)))
  }

  /** The projection takes `payload` next; neither the identifier nor the provenance matters. */
  predicate Admits(p: Projection, payload: AgentEvent) {
    && (p.status.IsTerminal() ==> AcceptedWhenTerminal(p.task, payload))
    && ApplyPayload(p, payload).Success?
  }

  lemma AdmitsIsAcceptance(p: Projection, event: Event)
    requires event.task == p.task && event.sequence == NextSequence(p)
    ensures Admits(p, event.payload) <==> Apply(p, event).Success?
  {}

  /** The projection of a whole log, left to right. */
  function Fold(task: TaskId, log: seq<Event>): Result<Projection, ProjectionError> {
    if log == [] then Success(NewProjection(task))
    else
      match Fold(task, log[..|log| - 1])
      case Failure(error) => Failure(error)
      case Success(p) => Apply(p, log[|log| - 1])
  }

  lemma FoldSnoc(task: TaskId, log: seq<Event>, event: Event)
    ensures Fold(task, log + [event]) ==
            match Fold(task, log) case Failure(error) => Failure(error) case Success(p) => Apply(p, event)
  {}

  lemma {:induction false} FoldPrefix(task: TaskId, log: seq<Event>, k: nat)
    requires k <= |log| && Fold(task, log).Success?
    ensures Fold(task, log[..k]).Success?
  {
    if k < |log| {
      FoldPrefix(task, log[..|log| - 1], k);
      assert log[..|log| - 1][..k] == log[..k];
    } else {
      assert log[..k] == log;
    }
  }

  /** The status a log leads to, if it replays. */
  function StatusOf(task: TaskId, log: seq<Event>): Option<TaskStatus> {
    match Fold(task, log)
    case Success(p) => Some(p.status)
    case Failure(_) => None
  }

  predicate IsOver(status: Option<TaskStatus>) {
    status.Some? && status.value.IsTerminal()
  }

  /** The events of one task, in order. */
  function OfTask(events: seq<Event>, task: TaskId): seq<Event> {
    if events == [] then []
    else
      OfTask(events[..|events| - 1], task) +
      if events[|events| - 1].task == task then [events[|events| - 1]] else []
  }

  /** The sequence number of the event at index `i` of a task log. */
  function SequenceAt(i: nat): nat {
    SaturatingAdd64(i, 1)
  }

  predicate Contiguous(task: TaskId, log: seq<Event>) {
    forall i :: 0 <= i < |log| ==> log[i].task == task && log[i].sequence == SequenceAt(i)
  }

  /** A log that folds is numbered 1, 2, 3, ... and belongs to one task. */
  lemma {:induction false} FoldIsContiguous(task: TaskId, log: seq<Event>)
    requires Fold(task, log).Success?
    ensures Contiguous(task, log)
    ensures var p := Fold(task, log).value;
            p.task == task && p.lastSequence == if log == [] then 0 else SequenceAt(|log| - 1)
  {
    if log != [] {
      FoldPrefix(task, log, |log| - 1);
      FoldIsContiguous(task, log[..|log| - 1]);
    }
  }

  predicate ContainsId(log: seq<Event>, id: EventId) {
    exists i :: 0 <= i < |log| && log[i].id == id
  }

  /** No identifier is used twice. */
  ghost predicate DistinctIds(log: seq<Event>) {
    log == [] || (DistinctIds(log[..|log| - 1]) && !ContainsId(log[..|log| - 1], log[|log| - 1].id))
  }

  lemma DistinctSnoc(log: seq<Event>, e: Event)
    ensures DistinctIds(log + [e]) <==> DistinctIds(log) && !ContainsId(log, e.id)
  {}

  lemma {:induction false} IdsDiffer(log: seq<Event>, i: nat, j: nat)
    requires DistinctIds(log) && i < j < |log|
    ensures log[i].id != log[j].id
  {
    var init := log[..|log| - 1];
    if j < |log| - 1 {
      IdsDiffer(init, i, j);
    } else {
      assert init[i] == log[i];
    }
  }

  lemma {:induction false} DistinctPrefix(log: seq<Event>, k: nat)
    requires DistinctIds(log) && k <= |log|
    ensures DistinctIds(log[..k])
  {
    if k < |log| {
      DistinctPrefix(log[..|log| - 1], k);
      assert log[..|log| - 1][..k] == log[..k];
    } else {
      assert log[..k] == log;
    }
  }

  lemma DropLacks(log: seq<Event>, k: nat, id: EventId)
    requires k <= |log| && !ContainsId(log, id)
    ensures !ContainsId(log[k..], id)
  {
    forall i | 0 <= i < |log[k..]|
      ensures log[k..][i].id != id
    {
      assert log[k..][i] == log[k + i];
    }
  }

  lemma {:induction false} DistinctDrop(log: seq<Event>, k: nat)
    requires DistinctIds(log) && k <= |log|
    ensures DistinctIds(log[k..])
  {
    if k < |log| {
      var init, e := log[..|log| - 1], log[|log| - 1];
      DistinctDrop(init, k);
      DropLacks(init, k, e.id);
      DistinctSnoc(init[k..], e);
      assert log[k..] == init[k..] + [e];
    }
  }

  function Ids(log: seq<Event>): set<EventId> {
    set e | e in log :: e.id
  }

  /** The first event with this identifier. */
  function FindEvent(log: seq<Event>, id: EventId): (r: Option<Event>)
    ensures r.Some? ==> r.value in log && r.value.id == id
    ensures r.None? <==> forall e :: e in log ==> e.id != id
  {
    if log == [] then None else if log[0].id == id then Some(log[0]) else FindEvent(log[1..], id)
  }

  lemma {:induction false} FindEventGrows(log: seq<Event>, more: seq<Event>, id: EventId)
    ensures FindEvent(log + more, id) == if FindEvent(log, id).Some? then FindEvent(log, id) else FindEvent(more, id)
  {
    if log == [] {
      assert log + more == more;
    } else {
      assert (log + more)[1..] == log[1..] + more;
      FindEventGrows(log[1..], more, id);
    }
  }
}
