/** Delegation to child tasks: every operation is requested and answered in the main log, and its effect
    on the child comes in between. The methods here run without interruption; `Operations` interleaves
    them. */
module TaskManager {
  import opened Wrappers
  import opened Domain
  import opened EventLog
  import opened Audit
  import opened Seqs
  import Delivery

  datatype ManagerError = OperationRejected | TaskAlreadyRunning | RuntimeFailure(error: RuntimeError)

  // --- What the store holds -----------------------------------------------------------------------

  /** The task logs, and everything persisted in the order it was persisted. */
  datatype Disk = Disk(files: map<TaskId, seq<Event>>, published: seq<Event>)

  function DiskOf(store: JsonlEventStore): Disk
    reads store
  {
    Disk(store.files, store.published)
  }

  function LogIn(d: Disk, task: TaskId): seq<Event> {
    FileOf(d.files, task)
  }

  function PersistOne(d: Disk, e: Event): Disk {
    Disk(d.files[e.task := LogIn(d, e.task) + [e]], d.published + [e])
  }

  /** Each event goes to the end of its own task's log. */
  function Persist(d: Disk, events: seq<Event>): Disk {
    if events == [] then d else PersistOne(Persist(d, events[..|events| - 1]), events[|events| - 1])
  }

  lemma PersistSingle(d: Disk, e: Event)
    ensures Persist(d, [e]) == PersistOne(d, e)
  {}

  lemma PersistSnoc(d: Disk, events: seq<Event>, e: Event)
    ensures Persist(d, events + [e]) == PersistOne(Persist(d, events), e)
  {}

  /** A log grows by exactly the events of its task, in order. */
  lemma {:induction false} PersistedLog(d: Disk, events: seq<Event>, task: TaskId)
    ensures LogIn(Persist(d, events), task) == LogIn(d, task) + OfTask(events, task)
    ensures Persist(d, events).published == d.published + events
  {
    if events != [] {
      PersistedLog(d, events[..|events| - 1], task);
      assert events == events[..|events| - 1] + [events[|events| - 1]];
    }
  }

  // --- One audited operation ------------------------------------------------------------------------

  datatype Exchange = Exchange(request: Event, effect: seq<Event>, answer: Event)

  ghost predicate OnlyFor(effect: seq<Event>, target: TaskId) {
    forall e :: e in effect ==> e.task == target && target != MAIN
  }

  /** What follows a request: its effect on the target's log, then the answer, and nothing else. */
  ghost predicate Concluded(mid: Disk, now: Disk, target: TaskId, request: Event, effect: seq<Event>, answer: Event) {
    && answer.task == MAIN && Answers(answer, request.id) && OnlyFor(effect, target)
    && now == PersistOne(Persist(mid, effect), answer)
  }

  /** The request, what it did to the target's log, and the answer, in this order, and nothing else. */
  ghost predicate Exchanged(before: Disk, now: Disk, target: TaskId, request: Event, effect: seq<Event>,
                            answer: Event)
  {
    && IsRequest(request) && request.task == MAIN
    && Concluded(PersistOne(before, request), now, target, request, effect, answer)
  }

  /** The request was answered: accepted after the effect, or rejected without any. */
  ghost predicate Settled(mid: Disk, now: Disk, target: TaskId, request: Event, accepted: bool, x: Exchange) {
    && x.request == request && Concluded(mid, now, target, request, x.effect, x.answer)
    && (if accepted then x.answer.payload == Control(TaskOperationAccepted(request.id, target))
        else x.effect == [] && x.answer.payload.Control? && x.answer.payload.control.TaskOperationRejected?)
  }

  /** The whole operation, from the request on. */
  ghost predicate Operated(before: Disk, now: Disk, target: TaskId, operation: TaskOperation, accepted: bool,
                           x: Exchange)
  {
    && x.request.payload == Control(TaskOperationRequested(operation)) && x.request.task == MAIN
    && Settled(PersistOne(before, x.request), now, target, x.request, accepted, x)
  }

  lemma {:induction false} OnOneTask(events: seq<Event>, task: TaskId, other: TaskId)
    requires forall e :: e in events ==> e.task == task
    ensures OfTask(events, other) == if other == task then events else []
  {
    if events != [] {
      OnOneTask(events[..|events| - 1], task, other);
      assert events == events[..|events| - 1] + [events[|events| - 1]];
    }
  }

  /** After an operation the main log has grown by the request and its answer, the target's log by the
      effect, and no other log has changed; in the order of persistence the answer comes last. */
  lemma ExchangeByLog(before: Disk, now: Disk, target: TaskId, request: Event, effect: seq<Event>, answer: Event,
                      task: TaskId)
    requires Exchanged(before, now, target, request, effect, answer)
    ensures LogIn(now, task) == LogIn(before, task) +
              if task == MAIN then [request, answer] else if task == target then effect else []
    ensures now.published == before.published + ([request] + effect + [answer])
  {
    var asked := PersistOne(before, request);
    PersistedLog(asked, effect, task);
    OnOneTask(effect, target, task);
    if task == MAIN && effect != [] {
      assert effect[0].task == target;
    }
    Framed(LogIn(before, task), request, effect, answer);
    Framed(before.published, request, effect, answer);
  }

  lemma Framed(log: seq<Event>, a: Event, middle: seq<Event>, b: Event)
    ensures log + [a] + middle + [b] == log + ([a] + middle + [b])
    ensures log + [a] + [] + [b] == log + [a, b] && log + [] == log
  {}

  /** Hence an operation keeps the audit trail in order and leaves no request open. */
  lemma ExchangeIsAudited(before: Disk, now: Disk, target: TaskId, request: Event, effect: seq<Event>, answer: Event)
    requires Exchanged(before, now, target, request, effect, answer)
    requires AuditOk(LogIn(before, MAIN)) && DistinctIds(LogIn(now, MAIN))
    ensures AuditOk(LogIn(now, MAIN))
    ensures AllAnswered(LogIn(before, MAIN)) ==> AllAnswered(LogIn(now, MAIN))
  {
    var log := LogIn(before, MAIN);
    ExchangeByLog(before, now, target, request, effect, answer, MAIN);
    assert LogIn(now, MAIN)[..|log| + 1] == log + [request];
    ExchangeKeepsAudit(log, request, answer);
  }

  /** What every operation below ensures is an exchange, and so for the logs: the main log grows by the
      request and its one answer and stays in order, the target's log by the effect if the operation was
      accepted and not at all if it was rejected, and no other log changes. */
  lemma OperatedIsAudited(before: Disk, now: Disk, target: TaskId, operation: TaskOperation, accepted: bool,
                          x: Exchange)
    requires Operated(before, now, target, operation, accepted, x)
    requires AuditOk(LogIn(before, MAIN)) && DistinctIds(LogIn(now, MAIN))
    ensures LogIn(now, MAIN) == LogIn(before, MAIN) + [x.request, x.answer] && AuditOk(LogIn(now, MAIN))
    ensures AllAnswered(LogIn(before, MAIN)) ==> AllAnswered(LogIn(now, MAIN))
    ensures accepted <==> x.answer.payload == Control(TaskOperationAccepted(x.request.id, target))
    ensures target != MAIN ==> LogIn(now, target) == LogIn(before, target) + if accepted then x.effect else []
    ensures forall task :: task != MAIN && task != target ==> LogIn(now, task) == LogIn(before, task)
  {
    ExchangeByLog(before, now, target, x.request, x.effect, x.answer, MAIN);
    ExchangeIsAudited(before, now, target, x.request, x.effect, x.answer);
    ExchangeByLog(before, now, target, x.request, x.effect, x.answer, target);
    forall task | task != MAIN && task != target
      ensures LogIn(now, task) == LogIn(before, task)
    {
      ExchangeByLog(before, now, target, x.request, x.effect, x.answer, task);
      AppendEmpty(LogIn(before, task));
    }
  }

  // --- Guards ---------------------------------------------------------------------------------------

  /** What the main session may ask a child to do. */
  predicate IsManageableControl(control: ControlEvent) {
    || control.PauseRequested? || control.ResumeRequested? || control.TaskCancelled? || control.ModelSelected?
    || control.MinimumControlPermissionChanged?
  }

  /** The executor's own check, for the system's authority: only the minimum permission can be wrong. */
  predicate PassesExecutor(control: ControlEvent) {
    && (control.MinimumControlPermissionChanged? ==> control.minimum.Allows(User))
    && (control.ModelSelected? ==>
          ValidModelComponent(control.provider, 128) && ValidModelComponent(control.modelId, 256))
  }

  /** When a delegated input goes through. */
  predicate InputAllowed(main: seq<Event>, child: seq<Event>, target: TaskId, authorityParent: EventId,
                         effective: PermissionLevel, now: nat)
  {
    && target != MAIN && child != [] && effective.CanAuthorize()
    && ParentPermission(main, authorityParent, now) == Some(effective)
  }

  /** When a control event goes through. */
  predicate ControlAllowed(child: seq<Event>, target: TaskId, control: ControlEvent) {
    && target != MAIN && child != [] && PassesExecutor(control)
    && Fold(target, child).Success? && Admits(Fold(target, child).value, Control(control))
  }

  /** When a child can be named: only while it is not over. */
  predicate NamingAllowed(child: seq<Event>, target: TaskId) {
    target != MAIN && child != [] && !IsOverIn(target, child)
  }

  lemma MainTakesManagement(p: Projection, control: ControlEvent)
    requires p.task == MAIN && control.IsTaskManagementOperation()
    ensures Admits(p, Control(control))
  {}

  function InputPayload(message: string, effective: PermissionLevel, request: EventId): AgentEvent {
    Ingress(ContextReceived(
      ContextEnvelope(UserMessage, "internal-task", "main-session", "request", effective, TextPayload(message),
                      Some(request)),
      PermissionAssessment(effective, effective, effective, effective)))
  }

  /** A task takes an input in every status. */
  lemma InputIsTaken(p: Projection, message: string, effective: PermissionLevel, request: EventId)
    ensures Admits(p, InputPayload(message, effective, request))
  {}

  predicate IsOverIn(task: TaskId, log: seq<Event>) {
    IsOver(StatusOf(task, log))
  }

  /** What a delivered input adds to the child's log: a new cycle if the last one is over, then the
      input, vouched for by its authority parent and by nothing of the model's own. */
  ghost predicate IsInputEffect(effect: seq<Event>, over: bool, target: TaskId, message: string,
                                authorityParent: EventId,
                                effective: PermissionLevel, request: EventId, input: EventId) {
    && |effect| == (if over then 2 else 1) && (forall x :: x in effect ==> x.task == target)
    && (over ==> effect[0].payload == Control(TaskQueued))
    && var e := effect[|effect| - 1];
       && e.id == input && e.payload == InputPayload(message, effective, request)
       && e.causation == Some(request) && e.provenance == ModelProvenance(Some(authorityParent))
  }

  lemma InputEffect(cycle: seq<Event>, input: Event, over: bool, message: string, authorityParent: EventId,
                    effective: PermissionLevel, request: EventId)
    requires if over then |cycle| == 1 && cycle[0].payload == Control(TaskQueued) && cycle[0].task == input.task
             else cycle == []
    requires input.payload == InputPayload(message, effective, request)
    requires input.causation == Some(request) && input.provenance == ModelProvenance(Some(authorityParent))
    ensures IsInputEffect(cycle + [input], over, input.task, message, authorityParent, effective, request, input.id)
  {}

  predicate IsName(name: string) {
    0 < |name| <= 128
  }

  /** What a control event does to the child's log: it is appended on the system's authority. */
  ghost predicate IsControlEffect(effect: seq<Event>, target: TaskId, control: ControlEvent, request: EventId,
                                  id: EventId)
  {
    && |effect| == 1 && effect[0].id == id && effect[0].task == target && effect[0].payload == Control(control)
    && effect[0].causation == Some(request) && effect[0].provenance == SYSTEM_PROVENANCE
  }

  /** A task takes a name until it is over. */
  lemma NameIsTaken(p: Projection, name: string)
    ensures Admits(p, Control(TaskNamed(name))) <==> !p.status.IsTerminal()
  {}

  ghost predicate IsDeliveryOf(e: Event, due: Delivery.Result) {
    && e.task == MAIN && e.payload == Tool(Finished(due.started, due.summary))
    && e.causation == Some(due.terminal) && e.provenance == TOOL_PROVENANCE
  }

  /** One delivery attempt: writes exactly what is due, and nothing is due afterwards; it fails exactly
      when something is due and the main session, or what its runtime last saw of it, is over. */
  ghost predicate Delivered(before: Disk, now: Disk, target: TaskId, seenOver: bool,
                            r: Result<Option<Event>, ManagerError>)
  {
    var due := Delivery.Due(LogIn(before, MAIN), target, LogIn(before, target));
    && (r.Failure? <==> due.Some? && (seenOver || IsOverIn(MAIN, LogIn(before, MAIN))))
    && (r.Success? ==>
          && (r.value.Some? <==> due.Some?)
          && (r.value.Some? ==> IsDeliveryOf(r.value.value, due.value) && now == PersistOne(before, r.value.value))
          && Delivery.Due(LogIn(now, MAIN), target, LogIn(now, target)) == None)
    && (r.Failure? || r.value.None? ==> now == before)
  }

  lemma ResultIsTaken(p: Projection, started: EventId, result: string)
    ensures Admits(p, Tool(Finished(started, result))) <==> !p.status.IsTerminal()
  {}

  lemma StatusAfter(task: TaskId, log: seq<Event>, p: Projection, e: Event, q: Projection)
    requires Fold(task, log) == Success(p) && Fold(task, log + [e]) == Success(q)
    ensures ApplyPayload(p, e.payload).Success? && q.status == ApplyPayload(p, e.payload).value.status
  {}

  /** Rebuilds a runtime from a task's log; there is nothing to rebuild from an empty one. */
  method Recover(store: JsonlEventStore, task: TaskId) returns (r: Result<TaskRuntime, RuntimeError>)
    requires store.Valid()
    ensures r.Success? <==> store.LogOf(task) != []
    ensures r.Success? ==>
              && fresh(r.value) && r.value.store == store && r.value.Valid() && r.value.projection.task == task
              && Fold(task, store.LogOf(task)) == Success(r.value.projection)
              && (IsOverIn(task, store.LogOf(task)) <==> r.value.projection.status.IsTerminal())
  {
    var events := store.LoadTask(task);
    if store.LogOf(task) == [] {
      return Failure(EmptyEventStream);
    }
    KeptOf(store.files, store.issued, task);
    var runtime := new TaskRuntime(store, task);
    var refreshed := runtime.RefreshProjection();
    r := Success(runtime);
  }

  lemma NothingMoreDue(main: seq<Event>, target: TaskId, child: seq<Event>, finished: Event)
    requires Delivery.Due(main, target, child).Some?
             && Delivery.Finishes(finished, Delivery.Due(main, target, child).value.started)
    ensures Delivery.Due(main + [finished], target, child) == None
  {
    Delivery.NothingDueAfterwards(main, target, child, finished, [], []);
    assert main + [finished] + [] == main + [finished] && child + [] == child;
  }

  class Manager {
    const store: JsonlEventStore
    /** Tasks registered in this process, with the state of their cancellation token. */
    var tasks: map<TaskId, bool>

    constructor (store: JsonlEventStore)
      ensures this.store == store && tasks == map[]
    {
      this.store, tasks := store, map[];
    }

    /** `main` is a usable runtime of the main session with room for `room` more records. */
    ghost predicate Ready(main: TaskRuntime, room: nat)
      reads main, store
    {
      && main.store == store && main.Valid() && main.projection.task == MAIN
      && |store.LogOf(MAIN)| + room < U64_MAX
    }

    /** Records one management event in the main log. The main session takes it whatever its status. */
    method RecordOnMain(main: TaskRuntime, control: ControlEvent, causation: Option<EventId>, ghost room: nat)
      returns (event: Event)
      requires Ready(main, room + 1) && control.IsTaskManagementOperation()
      modifies main, store
      ensures Ready(main, room)
      ensures event.payload == Control(control) && event.causation == causation && event.task == MAIN
      ensures DiskOf(store) == PersistOne(old(DiskOf(store)), event)
    {
      KeptOf(store.files, store.issued, MAIN);
      MainTakesManagement(main.projection, control);
      FoldIsContiguous(MAIN, store.LogOf(MAIN));
      MainTakesManagement(Fold(MAIN, store.LogOf(MAIN)).value, control);
      var recorded := main.Record(Control(control), causation, SYSTEM_PROVENANCE);
      event := recorded.value;
    }

    method Register(task: TaskId) returns (r: Result<(), ManagerError>)
      modifies this
      ensures r.Success? <==> task !in old(tasks)
      ensures tasks == if r.Success? then old(tasks)[task := false] else old(tasks)
    {
      if task in tasks {
        return Failure(TaskAlreadyRunning);
      }
      tasks := tasks[task := false];
      r := Success(());
    }

    method Unregister(task: TaskId)
      modifies this
      ensures tasks == old(tasks) - {task}
    {
      tasks := tasks - {task};
    }

    /** The first record of an operation. */
    method Ask(main: TaskRuntime, operation: TaskOperation, causation: Option<EventId>) returns (asked: Event)
      requires Ready(main, 2)
      modifies main, store
      ensures Ready(main, 1) && asked.payload == Control(TaskOperationRequested(operation)) && asked.task == MAIN
      ensures DiskOf(store) == PersistOne(old(DiskOf(store)), asked)
    {
      asked := RecordOnMain(main, TaskOperationRequested(operation), causation, 1);
    }

    /** The last record of an operation that took effect. */
    method Accept(main: TaskRuntime, asked: Event, target: TaskId, ghost mid: Disk, ghost effect: seq<Event>)
      returns (ghost x: Exchange)
      requires Ready(main, 1) && OnlyFor(effect, target) && DiskOf(store) == Persist(mid, effect)
      modifies main, store
      ensures Ready(main, 0) && x.effect == effect && Settled(mid, DiskOf(store), target, asked, true, x)
    {
      var answer := RecordOnMain(main, TaskOperationAccepted(asked.id, target), Some(asked.id), 0);
      x := Exchange(asked, effect, answer);
    }

    /** The last record of an operation that did not. */
    method Reject(main: TaskRuntime, asked: Event, ghost target: TaskId) returns (ghost x: Exchange)
      requires Ready(main, 1)
      modifies main, store
      ensures Ready(main, 0) && Settled(old(DiskOf(store)), DiskOf(store), target, asked, false, x)
    {
      var answer := RecordOnMain(main, TaskOperationRejected(asked.id, ""), Some(asked.id), 0);
      x := Exchange(asked, [], answer);
    }

    /** Opens a task under a fresh identifier: requested, registered, accepted. */
    method RequestCreateChild(main: TaskRuntime, task: TaskId, causation: Option<EventId>)
      returns (r: Result<TaskRuntime, ManagerError>, ghost x: Exchange)
      requires Ready(main, 2) && task !in tasks && task != MAIN
      modifies this, main, store
      ensures Ready(main, 0) && r.Success? && tasks == old(tasks)[task := false]
      ensures Operated(old(DiskOf(store)), DiskOf(store), task, CreateChild, true, x) && x.effect == []
      ensures fresh(r.value) && r.value.projection == NewProjection(task)
    {
      var asked := Ask(main, CreateChild, causation);
      var registered := Register(task);
      x := Accept(main, asked, task, DiskOf(store), []);
      var runtime := new TaskRuntime(store, task);
      r := Success(runtime);
    }

    /** `child` is an up-to-date runtime of its task with room for `room` more records. */
    ghost predicate Current(child: TaskRuntime, room: nat)
      reads child, store
    {
      && child.store == store && child.Valid() && |store.LogOf(child.projection.task)| + room < U64_MAX
      && Fold(child.projection.task, store.LogOf(child.projection.task)) == Success(child.projection)
    }

    /** Records on an up-to-date runtime: the event goes in exactly when the task takes it. */
    method TryOnChild(child: TaskRuntime, payload: AgentEvent, causation: Option<EventId>, provenance: EventProvenance,
                      ghost room: nat)
      returns (r: Result<Event, RuntimeError>)
      requires Current(child, room + 1) && !ForbiddenToChild(child.projection.task, payload)
      modifies child, store
      ensures Current(child, room) && child.projection.task == old(child.projection.task)
      ensures r.Success? <==> Admits(old(child.projection), payload)
      ensures r.Success? ==>
                && r.value.task == child.projection.task && r.value.payload == payload
                && r.value.causation == causation && r.value.provenance == provenance
                && DiskOf(store) == PersistOne(old(DiskOf(store)), r.value)
                && child.projection.status == ApplyPayload(old(child.projection), payload).value.status
      ensures r.Failure? ==> DiskOf(store) == old(DiskOf(store))
    {
      ghost var log, before, disk := store.LogOf(child.projection.task), child.projection, DiskOf(store);
      r := child.Record(payload, causation, provenance);
      if r.Success? {
        StatusAfter(before.task, log, before, r.value, child.projection);
      }
    }

    /** Records what the child's task takes. */
    method RecordOnChild(child: TaskRuntime, payload: AgentEvent, causation: Option<EventId>,
                         provenance: EventProvenance, ghost room: nat)
      returns (event: Event)
      requires Current(child, room + 1) && Admits(child.projection, payload)
               && !ForbiddenToChild(child.projection.task, payload)
      modifies child, store
      ensures Current(child, room) && child.projection.task == old(child.projection.task)
      ensures event.task == child.projection.task && event.payload == payload && event.causation == causation
              && event.provenance == provenance
      ensures DiskOf(store) == PersistOne(old(DiskOf(store)), event)
      ensures child.projection.status == ApplyPayload(old(child.projection), payload).value.status
    {
      var recorded := TryOnChild(child, payload, causation, provenance, room);
      event := recorded.value;
    }

    /** Opens a new cycle in the child's log if the last one is over. */
    method OpenCycle(child: TaskRuntime, request: EventId, ghost room: nat) returns (ghost effect: seq<Event>)
      requires Current(child, room + 1)
      modifies child, store
      ensures Current(child, room) && child.projection.task == old(child.projection.task)
              && !child.projection.status.IsTerminal()
      ensures DiskOf(store) == Persist(old(DiskOf(store)), effect)
      ensures if old(child.projection).status.IsTerminal()
              then
                && |effect| == 1 && effect[0].payload == Control(TaskQueued) && effect[0].task == child.projection.task
                && effect[0].causation == Some(request) && effect[0].provenance == SYSTEM_PROVENANCE
              else effect == []
    {
      ghost var log, before := store.LogOf(child.projection.task), child.projection;
      if before.status.IsTerminal() {
        OverTakesQueue(before);
      }
      var started := child.StartNewCycleIfTerminal(Some(request));
      effect := [];
      if started.value.Some? {
        effect := [started.value.value];
        PersistSingle(old(DiskOf(store)), started.value.value);
        StatusAfter(before.task, log, before, started.value.value, child.projection);
      }
    }

    /** Puts the input into the child's log, opening a new cycle first if the last one is over. */
    method PutInput(child: TaskRuntime, message: string, authorityParent: EventId, effective: PermissionLevel,
                    request: EventId)
      returns (input: Event, ghost effect: seq<Event>)
      requires Current(child, 2)
      modifies child, store
      ensures Current(child, 0) && child.projection.task == old(child.projection.task)
      ensures DiskOf(store) == Persist(old(DiskOf(store)), effect)
      ensures IsInputEffect(effect, old(child.projection).status.IsTerminal(), child.projection.task, message,
                            authorityParent, effective, request, input.id)
    {
      var payload := InputPayload(message, effective, request);
      ghost var cycle := OpenCycle(child, request, 1);
      InputIsTaken(child.projection, message, effective, request);
      input := RecordOnChild(child, payload, Some(request), ModelProvenance(Some(authorityParent)), 0);
      effect := cycle + [input];
      PersistSnoc(old(DiskOf(store)), cycle, input);
      InputEffect(cycle, input, old(child.projection).status.IsTerminal(), message, authorityParent, effective,
                  request);
    }

    /** Passes an input on to a child under the authority of a direct external input. It goes through
        exactly when the target is a child with a log and the authority parent, looked up in the main
        log, is a direct unexpired external input with the very permission claimed. */
    method RequestInputChild(main: TaskRuntime, target: TaskId, message: string, authorityParent: EventId,
                             effective: PermissionLevel,
                             causation: Option<EventId>, now: nat)
      returns (r: Result<EventId, ManagerError>, ghost x: Exchange)
      requires Ready(main, 2) && |store.LogOf(target)| + 2 < U64_MAX
      modifies main, store
      ensures Ready(main, 0)
      ensures Operated(old(DiskOf(store)), DiskOf(store), target, InputChild(target, message, authorityParent),
                       r.Success?, x)
      ensures r.Success? <==>
                InputAllowed(old(store.LogOf(MAIN)), old(store.LogOf(target)), target, authorityParent, effective, now)
      ensures r.Success? ==>
                IsInputEffect(x.effect, IsOverIn(target, old(store.LogOf(target))), target, message, authorityParent,
                              effective, x.request.id, r.value)
    {
      ghost var before := DiskOf(store);
      var asked := Ask(main, InputChild(target, message, authorityParent), causation);
      ghost var mid := DiskOf(store);
      AskedLogs(before, mid, asked, target, authorityParent, now);
      if target == MAIN || !effective.CanAuthorize()
      || ParentPermission(store.LogOf(MAIN), authorityParent, now) != Some(effective) {
        x := Reject(main, asked, target);
        r := Failure(OperationRejected);
      } else {
        r, x := PassOn(main, asked, target, message, authorityParent, effective);
      }
    }

    /** The part of `RequestInputChild` that comes after the authority check. */
    method PassOn(main: TaskRuntime, asked: Event, target: TaskId, message: string, authorityParent: EventId,
                  effective: PermissionLevel)
      returns (r: Result<EventId, ManagerError>, ghost x: Exchange)
      requires Ready(main, 1) && |store.LogOf(target)| + 2 < U64_MAX && target != MAIN
      modifies main, store
      ensures Ready(main, 0)
      ensures Settled(old(DiskOf(store)), DiskOf(store), target, asked, r.Success?, x)
      ensures r.Success? <==> old(store.LogOf(target)) != []
      ensures r.Success? ==>
                IsInputEffect(x.effect, IsOverIn(target, old(store.LogOf(target))), target, message, authorityParent,
                              effective, asked.id, r.value)
    {
      ghost var mid := DiskOf(store);
      var child := Recover(store, target);
      assert Ready(main, 1);
      if child.Failure? {
        x := Reject(main, asked, target);
        r := Failure(OperationRejected);
      } else {
        ghost var effect;
        var input;
        input, effect := PutInput(child.value, message, authorityParent, effective, asked.id);
        EffectElsewhere(mid, effect, target, MAIN);
        assert Ready(main, 1);
        x := Accept(main, asked, target, mid, effect);
        r := Success(input.id);
      }
    }

    /** One event on a child, then the answer: accepted exactly when the child's task takes the event. */
    method ActOnChild(main: TaskRuntime, child: TaskRuntime, asked: Event, target: TaskId, control: ControlEvent)
      returns (r: Result<EventId, ManagerError>, ghost x: Exchange)
      requires Ready(main, 1) && Current(child, 1) && child != main && child.projection.task == target != MAIN
      requires !control.IsTaskManagementOperation()
      modifies main, child, store
      ensures Ready(main, 0)
      ensures Settled(old(DiskOf(store)), DiskOf(store), target, asked, r.Success?, x)
      ensures r.Success? <==> Admits(old(child.projection), Control(control))
      ensures r.Success? ==> IsControlEffect(x.effect, target, control, asked.id, r.value)
    {
      ghost var mid := DiskOf(store);
      var recorded := TryOnChild(child, Control(control), Some(asked.id), SYSTEM_PROVENANCE, 0);
      if recorded.Failure? {
        assert Ready(main, 1);
        x := Reject(main, asked, target);
        r := Failure(OperationRejected);
      } else {
        var event := recorded.value;
        PersistSingle(mid, event);
        EffectElsewhere(mid, [event], target, MAIN);
        assert Ready(main, 1);
        x := Accept(main, asked, target, mid, [event]);
        r := Success(event.id);
      }
    }

    /** The part of `RequestControlChild` that concerns the child. */
    method ControlOnce(main: TaskRuntime, asked: Event, target: TaskId, control: ControlEvent)
      returns (r: Result<EventId, ManagerError>, ghost x: Exchange)
      requires Ready(main, 1) && |store.LogOf(target)| + 1 < U64_MAX && target != MAIN && IsManageableControl(control)
      modifies main, store
      ensures Ready(main, 0)
      ensures Settled(old(DiskOf(store)), DiskOf(store), target, asked, r.Success?, x)
      ensures r.Success? <==> ControlAllowed(old(store.LogOf(target)), target, control)
      ensures r.Success? ==> IsControlEffect(x.effect, target, control, asked.id, r.value)
    {
      var child := Recover(store, target);
      assert Ready(main, 1);
      if child.Failure? || !PassesExecutor(control) {
        x := Reject(main, asked, target);
        r := Failure(OperationRejected);
      } else {
        r, x := ActOnChild(main, child.value, asked, target, control);
      }
    }

    /** Sends a control event to a child. Events the main session may not send leave no trace at all;
        the others go through exactly when the executor and the child's task allow them, and a
        cancellation that goes through also cancels the registered token. */
    method RequestControlChild(main: TaskRuntime, target: TaskId, control: ControlEvent, causation: Option<EventId>)
      returns (r: Result<EventId, ManagerError>, ghost x: Option<Exchange>)
      requires Ready(main, 2) && |store.LogOf(target)| + 1 < U64_MAX
      modifies this, main, store
      ensures Ready(main, 0) && (x.Some? <==> IsManageableControl(control))
      ensures x.None? ==> r.Failure? && DiskOf(store) == old(DiskOf(store))
      ensures x.Some? ==>
                && Operated(old(DiskOf(store)), DiskOf(store), target, ControlChild(target, control), r.Success?,
                            x.value)
                && (r.Success? <==> ControlAllowed(old(store.LogOf(target)), target, control))
                && (r.Success? ==> IsControlEffect(x.value.effect, target, control, x.value.request.id, r.value))
      ensures tasks == if r.Success? && control.TaskCancelled? && target in old(tasks) then old(tasks)[target := true]
                       else old(tasks)
    {
      if !IsManageableControl(control) {
        return Failure(OperationRejected), None;
      }
      ghost var exchange;
      r, exchange := AskAndControl(main, target, control, causation);
      x := Some(exchange);
      if r.Success? && control.TaskCancelled? && target in tasks {
        tasks := tasks[target := true];
      }
    }

    method AskAndControl(main: TaskRuntime, target: TaskId, control: ControlEvent, causation: Option<EventId>)
      returns (r: Result<EventId, ManagerError>, ghost x: Exchange)
      requires Ready(main, 2) && |store.LogOf(target)| + 1 < U64_MAX && IsManageableControl(control)
      modifies main, store
      ensures Ready(main, 0)
      ensures Operated(old(DiskOf(store)), DiskOf(store), target, ControlChild(target, control), r.Success?, x)
      ensures r.Success? <==> ControlAllowed(old(store.LogOf(target)), target, control)
      ensures r.Success? ==> IsControlEffect(x.effect, target, control, x.request.id, r.value)
    {
      ghost var before := DiskOf(store);
      var asked := Ask(main, ControlChild(target, control), causation);
      ghost var mid := DiskOf(store);
      AskedLogs(before, mid, asked, target, 0, 0);
      if target == MAIN {
        x := Reject(main, asked, target);
        r := Failure(OperationRejected);
      } else {
        r, x := ControlOnce(main, asked, target, control);
      }
    }

    /** The part of `RequestNameChild` that concerns the child. */
    method NameOnce(main: TaskRuntime, asked: Event, target: TaskId, name: string)
      returns (r: Result<EventId, ManagerError>, ghost x: Exchange)
      requires Ready(main, 1) && |store.LogOf(target)| + 1 < U64_MAX && target != MAIN
      modifies main, store
      ensures Ready(main, 0)
      ensures Settled(old(DiskOf(store)), DiskOf(store), target, asked, r.Success?, x)
      ensures r.Success? <==> NamingAllowed(old(store.LogOf(target)), target)
      ensures r.Success? ==> IsControlEffect(x.effect, target, TaskNamed(name), asked.id, r.value)
    {
      var child := Recover(store, target);
      assert Ready(main, 1);
      if child.Failure? || child.value.projection.status.IsTerminal() {
        x := Reject(main, asked, target);
        r := Failure(OperationRejected);
      } else {
        NameIsTaken(child.value.projection, name);
        r, x := ActOnChild(main, child.value, asked, target, TaskNamed(name));
      }
    }

    /** Names a child: exactly while it is not over, and only with one to 128 characters after trimming. */
    method RequestNameChild(main: TaskRuntime, target: TaskId, name: string, causation: Option<EventId>)
      returns (r: Result<EventId, ManagerError>, ghost x: Option<Exchange>)
      requires Ready(main, 2) && |store.LogOf(target)| + 1 < U64_MAX
      modifies main, store
      ensures Ready(main, 0) && (x.Some? <==> IsName(Trim(name)))
      ensures x.None? ==> r.Failure? && DiskOf(store) == old(DiskOf(store))
      ensures x.Some? ==>
                && Operated(old(DiskOf(store)), DiskOf(store), target, NameChild(target, Trim(name)), r.Success?,
                            x.value)
                && (r.Success? <==> NamingAllowed(old(store.LogOf(target)), target))
                && (r.Success? ==>
                      IsControlEffect(x.value.effect, target, TaskNamed(Trim(name)), x.value.request.id, r.value))
    {
      var trimmed := Trim(name);
      if !IsName(trimmed) {
        return Failure(OperationRejected), None;
      }
      ghost var exchange;
      ghost var before := DiskOf(store);
      var asked := Ask(main, NameChild(target, trimmed), causation);
      ghost var mid := DiskOf(store);
      AskedLogs(before, mid, asked, target, 0, 0);
      if target == MAIN {
        exchange := Reject(main, asked, target);
        r := Failure(OperationRejected);
      } else {
        r, exchange := NameOnce(main, asked, target, trimmed);
      }
      x := Some(exchange);
    }

    /** Cancels a child that runs in this process, before the request is accepted. */
    method CancelChild(main: TaskRuntime, target: TaskId, reason: string, causation: Option<EventId>)
      returns (r: Result<(), ManagerError>, ghost x: Exchange)
      requires Ready(main, 2)
      modifies this, main, store
      ensures Ready(main, 0)
      ensures Operated(old(DiskOf(store)), DiskOf(store), target, TaskOperation.CancelChild(target, reason), r.Success?,
                       x) && x.effect == []
      ensures r.Success? <==> target != MAIN && target in old(tasks)
      ensures tasks == if r.Success? then old(tasks)[target := true] else old(tasks)
    {
      var asked := Ask(main, TaskOperation.CancelChild(target, reason), causation);
      if target == MAIN || target !in tasks {
        x := Reject(main, asked, target);
        r := Failure(OperationRejected);
      } else {
        tasks := tasks[target := true];
        x := Accept(main, asked, target, DiskOf(store), []);
        r := Success(());
      }
    }

    /** Reopens a child that is not over and not already registered. */
    method ResumeChild(main: TaskRuntime, target: TaskId, causation: Option<EventId>)
      returns (r: Result<TaskRuntime, ManagerError>, ghost x: Exchange)
      requires Ready(main, 2)
      modifies this, main, store
      ensures Ready(main, 0)
      ensures Operated(old(DiskOf(store)), DiskOf(store), target, TaskOperation.ResumeChild(target), r.Success?, x)
              && x.effect == []
      ensures r.Success? <==> NamingAllowed(old(store.LogOf(target)), target) && target !in old(tasks)
      ensures tasks == if r.Success? then old(tasks)[target := false] else old(tasks)
      ensures r.Success? ==> fresh(r.value) && Fold(target, old(store.LogOf(target))) == Success(r.value.projection)
    {
      ghost var before, log := DiskOf(store), store.LogOf(target);
      var asked := Ask(main, TaskOperation.ResumeChild(target), causation);
      ghost var mid := DiskOf(store);
      AskedLogs(before, mid, asked, target, 0, 0);
      if target == MAIN {
        x := Reject(main, asked, target);
        r := Failure(OperationRejected);
      } else {
        r, x := ResumeOnce(main, asked, target, log);
      }
    }

    /** The part of `ResumeChild` that concerns the child. */
    method ResumeOnce(main: TaskRuntime, asked: Event, target: TaskId, ghost log: seq<Event>)
      returns (r: Result<TaskRuntime, ManagerError>, ghost x: Exchange)
      requires Ready(main, 1) && target != MAIN && log == store.LogOf(target)
      modifies this, main, store
      ensures Ready(main, 0)
      ensures Settled(old(DiskOf(store)), DiskOf(store), target, asked, r.Success?, x) && x.effect == []
      ensures r.Success? <==> NamingAllowed(log, target) && target !in old(tasks)
      ensures tasks == if r.Success? then old(tasks)[target := false] else old(tasks)
      ensures r.Success? ==> fresh(r.value) && Fold(target, log) == Success(r.value.projection)
    {
      var child := Recover(store, target);
      assert Ready(main, 1);
      if child.Failure? || child.value.projection.status.IsTerminal() {
        x := Reject(main, asked, target);
        r := Failure(OperationRejected);
      } else {
        var registered;
        registered, x := RegisterAndAnswer(main, asked, target);
        r := if registered.Failure? then Failure(registered.error) else Success(child.value);
      }
    }

    method RegisterAndAnswer(main: TaskRuntime, asked: Event, target: TaskId)
      returns (r: Result<(), ManagerError>, ghost x: Exchange)
      requires Ready(main, 1) && target != MAIN
      modifies this, main, store
      ensures Ready(main, 0)
      ensures Settled(old(DiskOf(store)), DiskOf(store), target, asked, r.Success?, x) && x.effect == []
      ensures r.Success? <==> target !in old(tasks)
      ensures tasks == if r.Success? then old(tasks)[target := false] else old(tasks)
    {
      r := Register(target);
      if r.Failure? {
        x := Reject(main, asked, target);
      } else {
        x := Accept(main, asked, target, DiskOf(store), []);
      }
    }

    /** Writes a concluded child's result into the main log if one is due; afterwards none is due for
        this child any more. Only a main session that is over refuses it. */
    method DeliverChildResult(main: TaskRuntime, target: TaskId) returns (r: Result<Option<Event>, ManagerError>)
      requires Ready(main, 1)
      modifies main, store
      ensures Ready(main, 0)
      ensures Delivered(old(DiskOf(store)), DiskOf(store), target, old(main.projection).status.IsTerminal(), r)
    {
      ghost var before := DiskOf(store);
      var due := Delivery.Due(store.LogOf(MAIN), target, store.LogOf(target));
      if due.None? {
        return Success(None);
      }
      var payload := Tool(Finished(due.value.started, due.value.summary));
      KeptOf(store.files, store.issued, MAIN);
      ResultIsTaken(main.projection, due.value.started, due.value.summary);
      MainStatus(LogIn(before, MAIN), due.value);
      var recorded := main.Record(payload, Some(due.value.terminal), TOOL_PROVENANCE);
      match recorded {
        case Failure(error) => r := Failure(RuntimeFailure(error));
        case Success(event) =>
          r := Success(Some(event));
          DeliveryIsDone(before, target, event, due.value);
      }
    }
  }

  lemma MainStatus(log: seq<Event>, due: Delivery.Result)
    requires Fold(MAIN, log).Success?
    ensures Admits(Fold(MAIN, log).value, Tool(Finished(due.started, due.summary))) <==> !IsOverIn(MAIN, log)
  {}

  lemma DeliveryIsDone(before: Disk, target: TaskId, event: Event, due: Delivery.Result)
    requires Delivery.Due(LogIn(before, MAIN), target, LogIn(before, target)) == Some(due) && IsDeliveryOf(event, due)
    ensures var now := PersistOne(before, event); Delivery.Due(LogIn(now, MAIN), target, LogIn(now, target)) == None
  {
    NothingMoreDue(LogIn(before, MAIN), target, LogIn(before, target), event);
  }

  /** Events of one task leave the other logs alone. */
  lemma EffectElsewhere(d: Disk, effect: seq<Event>, target: TaskId, task: TaskId)
    requires task != target && forall e :: e in effect ==> e.task == target
    ensures LogIn(Persist(d, effect), task) == LogIn(d, task)
  {
    PersistedLog(d, effect, task);
    OnOneTask(effect, target, task);
  }

  /** What the main log and a child's log look like right after a request. */
  lemma AskedLogs(before: Disk, now: Disk, asked: Event, target: TaskId, parent: EventId, time: nat)
    requires now == PersistOne(before, asked) && asked.task == MAIN && IsRequest(asked)
    ensures target != MAIN ==> LogIn(now, target) == LogIn(before, target)
    ensures ParentPermission(LogIn(now, MAIN), parent, time) == ParentPermission(LogIn(before, MAIN), parent, time)
  {
    assert LogIn(now, MAIN) == LogIn(before, MAIN) + [asked];
    ParentSurvives(LogIn(before, MAIN), [asked], parent, time);
  }
}
