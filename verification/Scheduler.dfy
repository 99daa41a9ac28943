/** The background scheduler as a step relation: writers, jobs and one scanning loop interleave freely. */
module Scheduler {
  import opened Wrappers
  import opened Domain
  import opened CycleViews
  import Delivery

  // --- What a scan decides ------------------------------------------------------------------------

  /** The model has to run: `seen` are the loaded events, `status` that of the projection recovered next. */
  predicate Wants(task: TaskId, seen: seq<Event>, status: Option<TaskStatus>) {
    match status
    case Some(New) => ContextEvents(seen) != [] || WasResumed(seen)
    case Some(Queued) => ContextEvents(seen) != [] || WasResumed(seen)
    case Some(Running) => task == MAIN && (ContextEventsSinceLastModel(seen) != [] || PendingEvents(seen) != [])
    case Some(WaitingApproval) => CompletedApproval(seen).Some?
    case _ => false
  }

  /** The log can be loaded, and has something in it. */
  predicate IsLoadable(task: TaskId, log: seq<Event>) {
    log != [] && Contiguous(task, log)
  }

  predicate HasStopRequest(log: seq<Event>) {
    HasCancellationRequest(log) || HasPauseRequest(log)
  }

  /** A pause or cancellation was requested in the current cycle, at or after position `from`. */
  predicate RequestSince(log: seq<Event>, from: nat) {
    exists k :: from <= k < |log| && CycleStart(log) <= k && (AsksToCancel(log[k]) || AsksToPause(log[k]))
  }

  predicate AwaitsConfirmation(status: Option<TaskStatus>) {
    status == Some(Pausing) || status == Some(Cancelling)
  }

  /** Whether the main session can take a delivered result. */
  predicate MainAccepts(main: seq<Event>) {
    main != [] && StatusOf(MAIN, main).Some? && !IsOver(StatusOf(MAIN, main))
  }

  predicate DeliveryDue(main: seq<Event>, task: TaskId, child: seq<Event>) {
    task != MAIN && IsOver(StatusOf(task, child)) && MainAccepts(main) && Delivery.Due(main, task, child).Some?
  }

  // --- State --------------------------------------------------------------------------------------

  /** A running model loop: whether its token is cancelled, and the log it was started on. */
  datatype Job = Job(cancelled: bool, base: seq<Event>)

  /** Where the scanning loop is. A tick examines one task at a time, in several steps. */
  datatype Pc =
    | Waiting
    | TickStart
    | Scanning(todo: set<TaskId>)
    | Loaded(task: TaskId, todo: set<TaskId>, seen: seq<Event>)
    | Signalled(task: TaskId, todo: set<TaskId>, seen: seq<Event>)
    | Recovered(task: TaskId, todo: set<TaskId>, seen: seq<Event>, base: seq<Event>)
    | Confirming(task: TaskId, todo: set<TaskId>, seen: seq<Event>, base: seq<Event>)
    | Delivering(task: TaskId, todo: set<TaskId>)
    | MainRecovered(task: TaskId, todo: set<TaskId>, main: seq<Event>)
    | ChildRead(task: TaskId, todo: set<TaskId>, main: seq<Event>, child: seq<Event>)
    | BothRead(task: TaskId, todo: set<TaskId>, main: seq<Event>, child: seq<Event>, seen: seq<Event>)

  /** `inFlight` counts records written but not yet broadcast, `unread` broadcasts not yet received,
      `releasing` finished jobs that have left the active set but not yet notified. */
  datatype State = State(
    logs: map<TaskId, seq<Event>>,
    inFlight: nat,
    unread: nat,
    permit: bool,
    releasing: nat,
    active: map<TaskId, Job>,
    jobs: multiset<TaskId>,
    pc: Pc)

  function LogOf(s: State, task: TaskId): seq<Event> {
    if task in s.logs then s.logs[task] else []
  }

  datatype Step =
    | AppendTo(task: TaskId, event: Event)
    | Broadcast
    | EndJob(task: TaskId)
    | Notify
    | WakeByPermit
    | WakeByNotification(left: nat)
    | ListTasks
    | LoadEvents(task: TaskId)
    | SignalJob
    | RecoverTask
    | Act
    | Confirm(written: Option<Event>)
    | RecoverMain
    | ReadChild
    | ReadMain
    | Deliver(written: Option<Event>)
    | EndTick

  function Write(s: State, task: TaskId, event: Event): State {
    s.(logs := s.logs[task := LogOf(s, task) + [event]], inFlight := s.inFlight + 1)
  }

  function Signal(s: State, task: TaskId, seen: seq<Event>): State {
    if HasStopRequest(seen) && task in s.active
    then s.(active := s.active[task := s.active[task].(cancelled := true)])
    else s
  }

  datatype Choice = StartJob | ConfirmStop | DeliverResult | MoveOn

  /** What the scan does once it knows the loaded events and the recovered status. A job is started
      only for an inactive task and only while a slot is free. */
  function Choose(task: TaskId, seen: seq<Event>, status: Option<TaskStatus>, isActive: bool, hasSlot: bool): Choice {
    if isActive then MoveOn
    else if Wants(task, seen, status) && hasSlot then StartJob
    else if AwaitsConfirmation(status) then ConfirmStop
    else if task != MAIN && IsOver(status) then DeliverResult
    else MoveOn
  }

  function Start(s: State, task: TaskId, base: seq<Event>): State {
    s.(active := s.active[task := Job(false, base)], jobs := s.jobs + multiset{task})
  }

  function Decide(maxJobs: nat, s: State, task: TaskId, todo: set<TaskId>, seen: seq<Event>, base: seq<Event>): State {
    match Choose(task, seen, StatusOf(task, base), task in s.active, |s.active| < maxJobs)
    case StartJob => Start(s, task, base).(pc := Scanning(todo))
    case ConfirmStop => s.(pc := Confirming(task, todo, seen, base))
    case DeliverResult => s.(pc := Delivering(task, todo))
    case MoveOn => s.(pc := Scanning(todo))
  }

  /** The confirmation event for a task that stopped: paused with the requested reason, or cancelled. */
  predicate Confirms(payload: AgentEvent, status: Option<TaskStatus>, seen: seq<Event>) {
    match status
    case Some(Pausing) => PauseReason(seen).Some? && payload == Control(TaskPaused(PauseReason(seen).value))
    case Some(Cancelling) => payload.Control? && payload.control.TaskCancelled?
    case _ => false
  }

  /** The delivery finishes exactly the execution that was due, with the child's own conclusion. */
  predicate Quotes(event: Event, due: Option<Delivery.Result>) {
    due.Some? && event.payload == Tool(Finished(due.value.started, due.value.summary))
  }

  /** The steps of the loop itself, once it has listed the tasks. */
  predicate IsScan(step: Step) {
    || step.LoadEvents? || step.SignalJob? || step.RecoverTask? || step.Act? || step.Confirm? || step.RecoverMain?
    || step.ReadChild? || step.ReadMain? || step.Deliver? || step.EndTick?
  }

  ghost predicate Next(maxJobs: nat, s: State, t: State, step: Step) {
    match step
    case AppendTo(task, event) => t == Write(s, task, event)
    case Broadcast => s.inFlight > 0 && t == s.(inFlight := s.inFlight - 1, unread := s.unread + 1)
    case EndJob(task) =>
      task in s.jobs
        && t == s.(jobs := s.jobs - multiset{task}, active := s.active - {task}, releasing := s.releasing + 1)
    case Notify => s.releasing > 0 && t == s.(releasing := s.releasing - 1, permit := true)
    case WakeByPermit => s.pc == Waiting && s.permit && t == s.(permit := false, pc := TickStart)
    case WakeByNotification(left) =>
      s.pc == Waiting && s.unread > 0 && left <= s.unread && t == s.(unread := left, pc := TickStart)
    case ListTasks => s.pc == TickStart && t == s.(pc := Scanning(s.logs.Keys))
    case LoadEvents(task) =>
      && s.pc.Scanning? && task in s.pc.todo
      && t == s.(pc := if !IsLoadable(task, LogOf(s, task)) then Scanning(s.pc.todo - {task})
                       else Loaded(task, s.pc.todo - {task}, LogOf(s, task)))
    case SignalJob =>
      s.pc.Loaded? && t == Signal(s, s.pc.task, s.pc.seen).(pc := Signalled(s.pc.task, s.pc.todo, s.pc.seen))
    case RecoverTask =>
      && s.pc.Signalled?
      && t == s.(pc := if StatusOf(s.pc.task, LogOf(s, s.pc.task)).None? then Scanning(s.pc.todo)
                       else Recovered(s.pc.task, s.pc.todo, s.pc.seen, LogOf(s, s.pc.task)))
    case Act => s.pc.Recovered? && t == Decide(maxJobs, s, s.pc.task, s.pc.todo, s.pc.seen, s.pc.base)
    case Confirm(None) =>
      // Nothing is written only when the log has moved on or the request carries no reason.
      && s.pc.Confirming?
      && (LogOf(s, s.pc.task) != s.pc.base
          || (StatusOf(s.pc.task, s.pc.base) == Some(Pausing) && PauseReason(s.pc.seen).None?))
      && t == s.(pc := Scanning(s.pc.todo))
    case Confirm(Some(event)) =>
      && s.pc.Confirming? && Confirms(event.payload, StatusOf(s.pc.task, s.pc.base), s.pc.seen)
      && t == Write(s, s.pc.task, event).(pc := Scanning(s.pc.todo))
    case RecoverMain =>
      && s.pc.Delivering?
      && t == s.(pc := if MainAccepts(LogOf(s, MAIN)) then MainRecovered(s.pc.task, s.pc.todo, LogOf(s, MAIN))
                       else Scanning(s.pc.todo))
    case ReadChild =>
      s.pc.MainRecovered? && t == s.(pc := ChildRead(s.pc.task, s.pc.todo, s.pc.main, LogOf(s, s.pc.task)))
    case ReadMain =>
      s.pc.ChildRead? && t == s.(pc := BothRead(s.pc.task, s.pc.todo, s.pc.main, s.pc.child, LogOf(s, MAIN)))
    case Deliver(None) =>
      // Nothing is written only when nothing is due or the main log has moved on since it was recovered.
      && s.pc.BothRead?
      && (LogOf(s, MAIN) != s.pc.main || Delivery.Due(s.pc.seen, s.pc.task, s.pc.child).None?)
      && t == s.(pc := Scanning(s.pc.todo))
    case Deliver(Some(event)) =>
      && s.pc.BothRead? && Quotes(event, Delivery.Due(s.pc.seen, s.pc.task, s.pc.child))
      && t == Write(s, MAIN, event).(pc := Scanning(s.pc.todo))
    case EndTick => s.pc == Scanning({}) && t == s.(pc := Waiting)
  }

  /** A fresh process: any logs, no jobs, and a first tick about to begin. */
  ghost predicate Init(s: State) {
    && s.inFlight == 0 && s.unread == 0 && !s.permit && s.releasing == 0
    && s.active == map[] && s.jobs == multiset{} && s.pc == TickStart
  }

  // --- Safety of the active set -------------------------------------------------------------------

  /** The active set is bounded and lists exactly the running jobs, one for each of its tasks. */
  ghost predicate Bounded(maxJobs: nat, s: State) {
    && |s.active| <= maxJobs
    && forall t :: s.jobs[t] == if t in s.active then 1 else 0
  }

  /** Only three steps touch the active set. */
  lemma OthersLeaveJobs(maxJobs: nat, s: State, t: State, step: Step)
    requires Next(maxJobs, s, t, step) && !step.EndJob? && !step.SignalJob? && !step.Act?
    ensures t.active == s.active && t.jobs == s.jobs
  {}

  lemma EndKeepsBounded(maxJobs: nat, s: State, t: State, task: TaskId)
    requires Bounded(maxJobs, s) && Next(maxJobs, s, t, EndJob(task))
    ensures Bounded(maxJobs, t)
  {}

  lemma SignalKeepsBounded(maxJobs: nat, s: State, t: State)
    requires Bounded(maxJobs, s) && Next(maxJobs, s, t, SignalJob)
    ensures Bounded(maxJobs, t)
  {}

  lemma WantsIsStartable(task: TaskId, seen: seq<Event>, status: Option<TaskStatus>)
    requires Wants(task, seen, status)
    ensures Startable(status)
  {}

  lemma StartAddsOne(s: State, task: TaskId, base: seq<Event>)
    requires task !in s.active
    ensures |Start(s, task, base).active| == |s.active| + 1
  {}

  lemma DecideStarts(maxJobs: nat, s: State, task: TaskId, todo: set<TaskId>, seen: seq<Event>, base: seq<Event>)
    ensures var t := Decide(maxJobs, s, task, todo, seen, base);
            || (t.active == s.active && t.jobs == s.jobs)
            || (&& task !in s.active && |s.active| < maxJobs && Startable(StatusOf(task, base))
                && t.active == Start(s, task, base).active && |t.active| == |s.active| + 1
                && t.jobs == s.jobs + multiset{task})
  {
    if Choose(task, seen, StatusOf(task, base), task in s.active, |s.active| < maxJobs) == StartJob {
      WantsIsStartable(task, seen, StatusOf(task, base));
      StartAddsOne(s, task, base);
    }
  }

  lemma StepKeepsBounded(maxJobs: nat, s: State, t: State, step: Step)
    requires Bounded(maxJobs, s) && Next(maxJobs, s, t, step)
    ensures Bounded(maxJobs, t)
  {
    match step {
      case EndJob(task) => EndKeepsBounded(maxJobs, s, t, task);
      case SignalJob => SignalKeepsBounded(maxJobs, s, t);
      case Act => DecideStarts(maxJobs, s, s.pc.task, s.pc.todo, s.pc.seen, s.pc.base);
      case _ => OthersLeaveJobs(maxJobs, s, t, step);
    }
  }

  /** Every job was started on a prefix of its task's log, in a status the model may run in. */
  ghost predicate Grounded(s: State) {
    && (forall u :: u in s.active ==> s.active[u].base <= LogOf(s, u) && Startable(StatusOf(u, s.active[u].base)))
    && (s.pc.Recovered? ==> s.pc.base <= LogOf(s, s.pc.task))
    && (s.pc.Confirming? ==> AwaitsConfirmation(StatusOf(s.pc.task, s.pc.base)))
  }

  predicate Startable(status: Option<TaskStatus>) {
    status in {Some(New), Some(Queued), Some(Running), Some(WaitingApproval)}
  }

  lemma LogsOnlyGrow(maxJobs: nat, s: State, t: State, step: Step, u: TaskId)
    requires Next(maxJobs, s, t, step)
    ensures LogOf(s, u) <= LogOf(t, u)
  {}

  /** A job keeps the log it was started on; only a decision to start one adds to the active set. */
  lemma JobsKeepTheirBase(maxJobs: nat, s: State, t: State, step: Step, u: TaskId)
    requires Next(maxJobs, s, t, step) && u in t.active
    ensures (u in s.active && t.active[u].base == s.active[u].base)
            || (s.pc.Recovered? && u == s.pc.task && t.active[u].base == s.pc.base && Startable(StatusOf(u, s.pc.base)))
  {
    match step {
      case EndJob(_) =>
      case SignalJob =>
      case Act => DecideStarts(maxJobs, s, s.pc.task, s.pc.todo, s.pc.seen, s.pc.base);
      case _ => OthersLeaveJobs(maxJobs, s, t, step);
    }
  }

  lemma RecoveredIsCurrent(maxJobs: nat, s: State, t: State, step: Step)
    requires Next(maxJobs, s, t, step) && t.pc.Recovered?
    ensures t.pc.base == LogOf(t, t.pc.task) || t.pc == s.pc
  {}

  lemma ConfirmingIsDue(maxJobs: nat, s: State, t: State, step: Step)
    requires Next(maxJobs, s, t, step) && t.pc.Confirming?
    ensures AwaitsConfirmation(StatusOf(t.pc.task, t.pc.base)) || t.pc == s.pc
  {}

  lemma StepKeepsGrounded(maxJobs: nat, s: State, t: State, step: Step)
    requires Grounded(s) && Next(maxJobs, s, t, step)
    ensures Grounded(t)
  {
    forall u | u in t.active
      ensures t.active[u].base <= LogOf(t, u) && Startable(StatusOf(u, t.active[u].base))
    {
      LogsOnlyGrow(maxJobs, s, t, step, u);
      JobsKeepTheirBase(maxJobs, s, t, step, u);
    }
    if t.pc.Recovered? {
      LogsOnlyGrow(maxJobs, s, t, step, t.pc.task);
      RecoveredIsCurrent(maxJobs, s, t, step);
    }
    if t.pc.Confirming? {
      ConfirmingIsDue(maxJobs, s, t, step);
    }
  }

  // --- No lost wake-up ----------------------------------------------------------------------------

  /** Something will make the loop tick again. */
  predicate Wake(s: State) {
    s.permit || s.unread > 0 || s.inFlight > 0 || s.releasing > 0
  }

  /** A job whose token is not cancelled has had no stop request since it was started, as far as its log
      can be loaded. */
  predicate CancelDone(s: State, u: TaskId) {
    u in s.active && !s.active[u].cancelled && IsLoadable(u, LogOf(s, u)) ==>
        !RequestSince(LogOf(s, u), |s.active[u].base|)
  }

  predicate StartDone(maxJobs: nat, s: State, u: TaskId) {
    u in s.active || |s.active| >= maxJobs || !Wants(u, LogOf(s, u), StatusOf(u, LogOf(s, u)))
  }

  predicate ConfirmDone(s: State, u: TaskId) {
    u in s.active || !AwaitsConfirmation(StatusOf(u, LogOf(s, u)))
  }

  predicate DeliverDone(s: State, u: TaskId) {
    u in s.active || !DeliveryDue(LogOf(s, MAIN), u, LogOf(s, u))
  }

  /** Nothing is left to do for task `u`, given who is active. */
  predicate Settled(maxJobs: nat, s: State, u: TaskId) {
    CancelDone(s, u) && StartDone(maxJobs, s, u) && ConfirmDone(s, u) && DeliverDone(s, u)
  }

  /** The tick under way has yet to look at `u`. */
  predicate Ahead(s: State, u: TaskId) {
    match s.pc
    case Waiting => false
    case TickStart => true
    case Scanning(todo) => u in todo
    case Loaded(_, todo, _) => u in todo
    case Signalled(_, todo, _) => u in todo
    case Recovered(_, todo, _, _) => u in todo
    case Confirming(_, todo, _, _) => u in todo
    case Delivering(_, todo) => u in todo
    case MainRecovered(_, todo, _) => u in todo
    case ChildRead(_, todo, _, _) => u in todo
    case BothRead(_, todo, _, _, _) => u in todo
  }

  /** The tick is looking at `u`, what it has read is still current, and its earlier stages are done. */
  predicate InHand(maxJobs: nat, s: State, u: TaskId) {
    var log := LogOf(s, u);
    match s.pc
    case Loaded(task, _, seen) => task == u && seen == log
    case Signalled(task, _, seen) => task == u && seen == log && CancelDone(s, u)
    case Recovered(task, _, seen, base) => task == u && seen == log && base == log && CancelDone(s, u)
    case Confirming(task, _, seen, base) =>
      task == u && seen == log && base == log && CancelDone(s, u) && AwaitsConfirmation(StatusOf(u, log))
    case Delivering(task, _) => task == u && CancelDone(s, u) && StartDone(maxJobs, s, u) && ConfirmDone(s, u)
    case MainRecovered(task, _, main) =>
      task == u && main == LogOf(s, MAIN) && CancelDone(s, u) && StartDone(maxJobs, s, u) && ConfirmDone(s, u)
    case ChildRead(task, _, main, child) =>
      task == u && main == LogOf(s, MAIN) && child == log && CancelDone(s, u) && StartDone(maxJobs, s, u)
        && ConfirmDone(s, u)
    case BothRead(task, _, main, child, seen) =>
      && task == u && main == LogOf(s, MAIN) && seen == LogOf(s, MAIN) && child == log
      && CancelDone(s, u) && StartDone(maxJobs, s, u) && ConfirmDone(s, u)
    case _ => false
  }

  /** The tick is looking at `u`. */
  predicate Current(pc: Pc, u: TaskId) {
    !pc.Waiting? && !pc.TickStart? && !pc.Scanning? && pc.task == u
  }

  /** Task `u` is not forgotten. */
  ghost predicate Remembered(maxJobs: nat, s: State, u: TaskId) {
    Wake(s) || Ahead(s, u) || if Current(s.pc, u) then InHand(maxJobs, s, u) else Settled(maxJobs, s, u)
  }

  ghost predicate NoneForgotten(maxJobs: nat, s: State) {
    forall u :: u in s.logs ==> Remembered(maxJobs, s, u)
  }

  /** Only its own log and job, the main log, and the number of free slots matter to a task. */
  lemma SettledDepends(maxJobs: nat, s: State, t: State, u: TaskId)
    requires Settled(maxJobs, s, u) && LogOf(t, u) == LogOf(s, u) && LogOf(t, MAIN) == LogOf(s, MAIN)
    requires (u in t.active <==> u in s.active) && (u in s.active ==> t.active[u] == s.active[u])
    requires |t.active| >= |s.active|
    ensures Settled(maxJobs, t, u)
  {}

  lemma SignalRemembers(maxJobs: nat, s: State, t: State, u: TaskId)
    requires Next(maxJobs, s, t, SignalJob) && u in s.logs && Remembered(maxJobs, s, u)
    ensures Remembered(maxJobs, t, u)
  {}

  lemma RecoverRemembers(maxJobs: nat, s: State, t: State, u: TaskId)
    requires Next(maxJobs, s, t, RecoverTask) && u in s.logs && Remembered(maxJobs, s, u)
    ensures Remembered(maxJobs, t, u)
  {}

  /** The decision settles the task in hand, or goes on to confirm or deliver for it. */
  lemma ActSettlesTask(maxJobs: nat, s: State, t: State)
    requires Next(maxJobs, s, t, Act) && !Wake(s) && InHand(maxJobs, s, s.pc.task)
    ensures if Current(t.pc, s.pc.task) then InHand(maxJobs, t, s.pc.task) else Settled(maxJobs, t, s.pc.task)
  {
    DecideStarts(maxJobs, s, s.pc.task, s.pc.todo, s.pc.seen, s.pc.base);
  }

  lemma DecideLeavesOthers(maxJobs: nat, s: State, task: TaskId, todo: set<TaskId>, seen: seq<Event>, base: seq<Event>,
                           u: TaskId)
    requires u != task
    ensures var t := Decide(maxJobs, s, task, todo, seen, base);
            && t.logs == s.logs && |t.active| >= |s.active|
            && (u in t.active <==> u in s.active) && (u in s.active ==> t.active[u] == s.active[u])
  {}

  lemma StartKeepsOthersSettled(maxJobs: nat, s: State, t: State, u: TaskId)
    requires Next(maxJobs, s, t, Act) && u != s.pc.task && Settled(maxJobs, s, u)
    ensures Settled(maxJobs, t, u)
  {
    DecideLeavesOthers(maxJobs, s, s.pc.task, s.pc.todo, s.pc.seen, s.pc.base, u);
    SettledDepends(maxJobs, s, t, u);
  }

  lemma ActRemembers(maxJobs: nat, s: State, t: State, u: TaskId)
    requires Next(maxJobs, s, t, Act) && u in s.logs && Remembered(maxJobs, s, u)
    ensures Remembered(maxJobs, t, u)
  {
    if !Wake(s) && u !in s.pc.todo {
      if u == s.pc.task {
        ActSettlesTask(maxJobs, s, t);
      } else {
        StartKeepsOthersSettled(maxJobs, s, t, u);
      }
    }
  }

  lemma ConfirmRemembers(maxJobs: nat, s: State, t: State, written: Option<Event>, u: TaskId)
    requires Next(maxJobs, s, t, Confirm(written)) && u in s.logs && Remembered(maxJobs, s, u)
    ensures Remembered(maxJobs, t, u)
  {
    if written == None && !Wake(s) && InHand(maxJobs, s, u) && StatusOf(u, s.pc.base) == Some(Pausing) {
      PausingHasReason(u, s.pc.base);
      assert false;
    }
  }

  lemma DeliveryRemembers(maxJobs: nat, s: State, t: State, step: Step, u: TaskId)
    requires step.RecoverMain? || step.ReadChild? || step.ReadMain? || step.Deliver?
    requires Next(maxJobs, s, t, step) && u in s.logs && Remembered(maxJobs, s, u)
    ensures Remembered(maxJobs, t, u)
  {}

  /** A log that cannot be loaded, or is empty, wants nothing. */
  lemma UnloadableIsSettled(maxJobs: nat, s: State, u: TaskId)
    requires !IsLoadable(u, LogOf(s, u))
    ensures Settled(maxJobs, s, u)
  {
    if LogOf(s, u) == [] {
      assert CurrentCycle([]) == [] && ContextEvents([]) == [];
      assert StatusOf(u, []) == Some(New);
    } else if Fold(u, LogOf(s, u)).Success? {
      FoldIsContiguous(u, LogOf(s, u));
    }
  }

  lemma LoadRemembers(maxJobs: nat, s: State, t: State, task: TaskId, u: TaskId)
    requires Next(maxJobs, s, t, LoadEvents(task)) && u in s.logs && Remembered(maxJobs, s, u)
    ensures Remembered(maxJobs, t, u)
  {
    if u == task {
      if !IsLoadable(u, LogOf(s, u)) {
        UnloadableIsSettled(maxJobs, t, u);
      }
    } else if !Wake(s) && u !in s.pc.todo {
      SettledDepends(maxJobs, s, t, u);
    }
  }

  /** Writers and jobs leave something behind that wakes the loop. */
  lemma WritersWake(maxJobs: nat, s: State, t: State, step: Step)
    requires Next(maxJobs, s, t, step) && (step.AppendTo? || step.Broadcast? || step.EndJob? || step.Notify?)
    ensures Wake(t)
  {}

  lemma LoopTurnRemembers(maxJobs: nat, s: State, t: State, step: Step, u: TaskId)
    requires step.WakeByPermit? || step.WakeByNotification? || step.ListTasks? || step.EndTick?
    requires Next(maxJobs, s, t, step) && u in s.logs && Remembered(maxJobs, s, u)
    ensures t.logs == s.logs && Remembered(maxJobs, t, u)
  {}

  lemma ScanLeavesTasks(maxJobs: nat, s: State, t: State, step: Step)
    requires IsScan(step) && Next(maxJobs, s, t, step)
    ensures t.logs == s.logs || Wake(t)
  {}

  lemma StepRemembersOne(maxJobs: nat, s: State, t: State, step: Step, u: TaskId)
    requires IsScan(step) && Next(maxJobs, s, t, step) && u in s.logs && Remembered(maxJobs, s, u) && Grounded(s)
    ensures Remembered(maxJobs, t, u)
  {
    match step {
      case LoadEvents(task) => LoadRemembers(maxJobs, s, t, task, u);
      case SignalJob => SignalRemembers(maxJobs, s, t, u);
      case RecoverTask => RecoverRemembers(maxJobs, s, t, u);
      case Act => ActRemembers(maxJobs, s, t, u);
      case Confirm(written) => ConfirmRemembers(maxJobs, s, t, written, u);
      case EndTick => LoopTurnRemembers(maxJobs, s, t, step, u);
      case _ => DeliveryRemembers(maxJobs, s, t, step, u);
    }
  }

  lemma StepRemembers(maxJobs: nat, s: State, t: State, step: Step)
    requires NoneForgotten(maxJobs, s) && Grounded(s) && Next(maxJobs, s, t, step)
    ensures NoneForgotten(maxJobs, t)
  {
    if step.AppendTo? || step.Broadcast? || step.EndJob? || step.Notify? {
      WritersWake(maxJobs, s, t, step);
    } else if IsScan(step) {
      ScanLeavesTasks(maxJobs, s, t, step);
      forall u | u in s.logs
        ensures Remembered(maxJobs, t, u)
      {
        StepRemembersOne(maxJobs, s, t, step, u);
      }
    } else {
      forall u | u in s.logs
        ensures t.logs == s.logs && Remembered(maxJobs, t, u)
      {
        LoopTurnRemembers(maxJobs, s, t, step, u);
      }
    }
  }

  // --- Runs ---------------------------------------------------------------------------------------

  ghost predicate Run(maxJobs: nat, states: seq<State>, steps: seq<Step>) {
    && |states| == |steps| + 1 && Init(states[0])
    && forall i :: 0 <= i < |steps| ==> Next(maxJobs, states[i], states[i + 1], steps[i])
  }

  ghost predicate Sound(maxJobs: nat, s: State) {
    Bounded(maxJobs, s) && Grounded(s) && NoneForgotten(maxJobs, s)
  }

  lemma {:induction false} EveryStateIsSound(maxJobs: nat, states: seq<State>, steps: seq<Step>, i: nat)
    requires Run(maxJobs, states, steps) && i <= |steps|
    ensures Sound(maxJobs, states[i])
  {
    if i > 0 {
      EveryStateIsSound(maxJobs, states, steps, i - 1);
      StepKeepsBounded(maxJobs, states[i - 1], states[i], steps[i - 1]);
      StepKeepsGrounded(maxJobs, states[i - 1], states[i], steps[i - 1]);
      StepRemembers(maxJobs, states[i - 1], states[i], steps[i - 1]);
    }
  }

  /** The loop waits and nothing can wake it. */
  predicate AtRest(s: State) {
    s.pc == Waiting && !Wake(s)
  }

  /** At most `maxJobs` jobs at any time, and never two for one task. */
  lemma ActiveSetIsBounded(maxJobs: nat, states: seq<State>, steps: seq<Step>, i: nat)
    requires Run(maxJobs, states, steps) && i <= |steps|
    ensures |states[i].active| <= maxJobs && forall u :: states[i].jobs[u] <= 1
  {
    EveryStateIsSound(maxJobs, states, steps, i);
  }

  /** No lost wake-up. Whatever the interleaving, when the loop rests every task is settled: one the
      model has to run for is active or every slot is taken, nothing waits for a confirmation or a
      delivery, and every stop request made after a job began has cancelled it. */
  lemma NoLostWakeUp(maxJobs: nat, states: seq<State>, steps: seq<Step>, i: nat, u: TaskId)
    requires Run(maxJobs, states, steps) && i <= |steps| && AtRest(states[i]) && u in states[i].logs
    ensures var s := states[i];
            var log := LogOf(s, u);
            && (Wants(u, log, StatusOf(u, log)) ==> u in s.active || |s.active| == maxJobs)
            && (u !in s.active ==> !AwaitsConfirmation(StatusOf(u, log)) && !DeliveryDue(LogOf(s, MAIN), u, log))
            && (u in s.active && IsLoadable(u, log) && RequestSince(log, |s.active[u].base|) ==> s.active[u].cancelled)
  {
    EveryStateIsSound(maxJobs, states, steps, i);
    assert Remembered(maxJobs, states[i], u);
  }

  lemma CycleStartGrows(log: seq<Event>, k: nat)
    requires k <= |log|
    ensures CycleStart(log[..k]) <= CycleStart(log)
  {}

  lemma CancelledBaseIsStopped(task: TaskId, base: seq<Event>, log: seq<Event>, k: nat)
    requires base <= log && RestartsThroughQueue(task, log) && Fold(task, base).Success?
    requires CycleStart(log) <= k < |base| && AsksToCancel(log[k])
    ensures IsStopped(task, base)
  {
    assert log[..|base|] == base;
    CycleStartGrows(log, |base|);
    forall n | k < n < |base|
      ensures !RestartsDirectly(task, base, n)
    {
      assert base[..n] == log[..n] && !RestartsDirectly(task, log, n);
    }
    StoppedUpTo(task, base, k, |base|);
    assert base[..|base|] == base;
  }

  /** A cancellation request in the current cycle was made after the job began: a job is never started
      on a cancelled cycle, provided no input of this cycle restarted the task directly. */
  lemma CancellationCameLater(task: TaskId, base: seq<Event>, log: seq<Event>)
    requires base <= log && RestartsThroughQueue(task, log) && Startable(StatusOf(task, base))
    requires HasCancellationRequest(log)
    ensures RequestSince(log, |base|)
  {
    var k :| CycleStart(log) <= k < |log| && AsksToCancel(log[k]);
    if k < |base| {
      CancelledBaseIsStopped(task, base, log, k);
    }
  }

  /** Hence, at rest, no job of a cancelled cycle is still running with a live token. */
  lemma CancelledJobsAreSignalled(maxJobs: nat, states: seq<State>, steps: seq<Step>, i: nat, u: TaskId)
    requires Run(maxJobs, states, steps) && i <= |steps| && AtRest(states[i]) && u in states[i].logs
    requires RestartsThroughQueue(u, LogOf(states[i], u)) && HasCancellationRequest(LogOf(states[i], u))
    requires u in states[i].active && IsLoadable(u, LogOf(states[i], u))
    ensures states[i].active[u].cancelled
  {
    EveryStateIsSound(maxJobs, states, steps, i);
    CancellationCameLater(u, states[i].active[u].base, LogOf(states[i], u));
    NoLostWakeUp(maxJobs, states, steps, i, u);
  }

  // --- Deliveries -----------------------------------------------------------------------------------

  /** The execution is finished in the main log, and in what the loop has read of it for a delivery. */
  predicate FinishedFor(s: State, started: EventId) {
    && Delivery.AlreadyFinished(LogOf(s, MAIN), started)
    && (s.pc.BothRead? ==> Delivery.AlreadyFinished(s.pc.seen, started))
  }

  lemma FinishedStaysFor(maxJobs: nat, s: State, t: State, step: Step, started: EventId)
    requires Next(maxJobs, s, t, step) && FinishedFor(s, started)
    ensures FinishedFor(t, started)
  {
    LogsOnlyGrow(maxJobs, s, t, step, MAIN);
    var before, after := LogOf(s, MAIN), LogOf(t, MAIN);
    assert after == before + after[|before|..];
    Delivery.FinishedStays(before, after[|before|..], started);
    if t.pc.BothRead? {
      BothReadIsKnown(maxJobs, s, t, step);
    }
  }

  lemma BothReadIsKnown(maxJobs: nat, s: State, t: State, step: Step)
    requires Next(maxJobs, s, t, step) && t.pc.BothRead?
    ensures t.pc.seen == LogOf(s, MAIN) || t.pc == s.pc
  {}

  lemma {:induction false} FinishedFromThenOn(maxJobs: nat, states: seq<State>, steps: seq<Step>, i: nat, j: nat,
                                              started: EventId)
    requires Run(maxJobs, states, steps) && i <= j <= |steps| && FinishedFor(states[i], started)
    ensures FinishedFor(states[j], started)
  {
    if i < j {
      FinishedFromThenOn(maxJobs, states, steps, i, j - 1, started);
      FinishedStaysFor(maxJobs, states[j - 1], states[j], steps[j - 1], started);
    }
  }

  predicate IsDelivery(step: Step) {
    step.Deliver? && step.written.Some? && step.written.value.payload.Tool? && step.written.value.payload.tool.Finished?
  }

  /** Over every run, no two deliveries of the loop finish the same execution, whatever happens between
      their reads and writes. */
  lemma DeliveriesAreDistinct(maxJobs: nat, states: seq<State>, steps: seq<Step>, i: nat, j: nat)
    requires Run(maxJobs, states, steps) && i < j < |steps| && IsDelivery(steps[i]) && IsDelivery(steps[j])
    ensures steps[i].written.value.payload.tool.started != steps[j].written.value.payload.tool.started
  {
    var event := steps[i].written.value;
    var started := event.payload.tool.started;
    assert Next(maxJobs, states[i], states[i + 1], steps[i]) && Next(maxJobs, states[j], states[j + 1], steps[j]);
    assert LogOf(states[i + 1], MAIN) == LogOf(states[i], MAIN) + [event];
    assert Delivery.Finishes(LogOf(states[i + 1], MAIN)[|LogOf(states[i], MAIN)|], started);
    FinishedFromThenOn(maxJobs, states, steps, i + 1, j, started);
  }

  // --- A tick ends ----------------------------------------------------------------------------------

  /** How much of the tick is left. */
  function Remaining(pc: Pc): nat {
    match pc
    case Waiting => 0
    case TickStart => 0
    case Scanning(todo) => 8 * |todo| + 1
    case Loaded(_, todo, _) => 8 * |todo| + 8
    case Signalled(_, todo, _) => 8 * |todo| + 7
    case Recovered(_, todo, _, _) => 8 * |todo| + 6
    case Confirming(_, todo, _, _) => 8 * |todo| + 2
    case Delivering(_, todo) => 8 * |todo| + 5
    case MainRecovered(_, todo, _) => 8 * |todo| + 4
    case ChildRead(_, todo, _, _) => 8 * |todo| + 3
    case BothRead(_, todo, _, _, _) => 8 * |todo| + 2
  }

  lemma ActMakesProgress(maxJobs: nat, s: State, t: State)
    requires Next(maxJobs, s, t, Act)
    ensures Remaining(t.pc) < Remaining(s.pc)
  {}

  lemma DeliveryMakesProgress(maxJobs: nat, s: State, t: State, step: Step)
    requires step.RecoverMain? || step.ReadChild? || step.ReadMain? || step.Deliver? || step.Confirm?
    requires Next(maxJobs, s, t, step)
    ensures Remaining(t.pc) < Remaining(s.pc)
  {}

  lemma LoadMakesProgress(maxJobs: nat, s: State, t: State, step: Step)
    requires step.LoadEvents? || step.SignalJob? || step.RecoverTask? || step.EndTick?
    requires Next(maxJobs, s, t, step)
    ensures Remaining(t.pc) < Remaining(s.pc)
  {}

  /** Writers and jobs leave the tick alone, and every step of its own brings it closer to its end, so it
      ends after finitely many of them. */
  lemma TickMakesProgress(maxJobs: nat, s: State, t: State, step: Step)
    requires Next(maxJobs, s, t, step)
    ensures IsScan(step) ==> Remaining(t.pc) < Remaining(s.pc)
    ensures step.AppendTo? || step.Broadcast? || step.EndJob? || step.Notify? ==> t.pc == s.pc
  {
    if step.Act? {
      ActMakesProgress(maxJobs, s, t);
    } else if step.RecoverMain? || step.ReadChild? || step.ReadMain? || step.Deliver? || step.Confirm? {
      DeliveryMakesProgress(maxJobs, s, t, step);
    } else if IsScan(step) {
      LoadMakesProgress(maxJobs, s, t, step);
    }
  }

  function AnyEvent(task: TaskId, payload: AgentEvent): Event {
    Event(0, task, 1, None, SYSTEM_PROVENANCE, payload)
  }

  ghost predicate CanStep(maxJobs: nat, s: State) {
    exists step, t :: (IsScan(step) || step == ListTasks) && Next(maxJobs, s, t, step)
  }

  lemma ScanCanStep(maxJobs: nat, s: State)
    requires s.pc.TickStart? || s.pc.Scanning?
    ensures CanStep(maxJobs, s)
  {
    match s.pc {
      case TickStart =>
        assert Next(maxJobs, s, s.(pc := Scanning(s.logs.Keys)), ListTasks);
      case Scanning(todo) =>
        if todo == {} {
          assert Next(maxJobs, s, s.(pc := Waiting), EndTick);
        } else {
          var task :| task in todo;
          var pc := if !IsLoadable(task, LogOf(s, task)) then Scanning(todo - {task})
                    else Loaded(task, todo - {task}, LogOf(s, task));
          assert Next(maxJobs, s, s.(pc := pc), LoadEvents(task));
        }
    }
  }

  lemma ExaminationCanStep(maxJobs: nat, s: State)
    requires s.pc.Loaded? || s.pc.Signalled? || s.pc.Recovered?
    ensures CanStep(maxJobs, s)
  {
    match s.pc {
      case Loaded(task, todo, seen) =>
        assert Next(maxJobs, s, Signal(s, task, seen).(pc := Signalled(task, todo, seen)), SignalJob);
      case Signalled(task, todo, seen) =>
        var pc := if StatusOf(task, LogOf(s, task)).None? then Scanning(todo)
                  else Recovered(task, todo, seen, LogOf(s, task));
        assert Next(maxJobs, s, s.(pc := pc), RecoverTask);
      case Recovered(task, todo, seen, base) =>
        assert Next(maxJobs, s, Decide(maxJobs, s, task, todo, seen, base), Act);
    }
  }

  lemma ConfirmationCanStep(maxJobs: nat, s: State)
    requires s.pc.Confirming? && AwaitsConfirmation(StatusOf(s.pc.task, s.pc.base))
    ensures CanStep(maxJobs, s)
  {
    var status := StatusOf(s.pc.task, s.pc.base);
    if status == Some(Pausing) && PauseReason(s.pc.seen).None? {
      assert Next(maxJobs, s, s.(pc := Scanning(s.pc.todo)), Confirm(None));
    } else {
      var payload := Control(if status == Some(Pausing) then TaskPaused(PauseReason(s.pc.seen).value)
                             else TaskCancelled(""));
      var event := AnyEvent(s.pc.task, payload);
      assert Next(maxJobs, s, Write(s, s.pc.task, event).(pc := Scanning(s.pc.todo)), Confirm(Some(event)));
    }
  }

  lemma DeliveryCanStep(maxJobs: nat, s: State)
    requires s.pc.Delivering? || s.pc.MainRecovered? || s.pc.ChildRead? || s.pc.BothRead?
    ensures CanStep(maxJobs, s)
  {
    match s.pc {
      case Delivering(task, todo) =>
        var pc := if MainAccepts(LogOf(s, MAIN)) then MainRecovered(task, todo, LogOf(s, MAIN)) else Scanning(todo);
        assert Next(maxJobs, s, s.(pc := pc), RecoverMain);
      case MainRecovered(task, todo, main) =>
        assert Next(maxJobs, s, s.(pc := ChildRead(task, todo, main, LogOf(s, task))), ReadChild);
      case ChildRead(task, todo, main, child) =>
        assert Next(maxJobs, s, s.(pc := BothRead(task, todo, main, child, LogOf(s, MAIN))), ReadMain);
      case BothRead(task, todo, main, child, seen) =>
        match Delivery.Due(seen, task, child)
        case None => assert Next(maxJobs, s, s.(pc := Scanning(todo)), Deliver(None));
        case Some(due) =>
          var event := AnyEvent(MAIN, Tool(Finished(due.started, due.summary)));
          assert Next(maxJobs, s, Write(s, MAIN, event).(pc := Scanning(todo)), Deliver(Some(event)));
    }
  }

  /** The loop is never stuck in the middle of a tick. */
  lemma TickIsNeverStuck(maxJobs: nat, states: seq<State>, steps: seq<Step>, i: nat)
    requires Run(maxJobs, states, steps) && i <= |steps| && states[i].pc != Waiting
    ensures CanStep(maxJobs, states[i])
  {
    EveryStateIsSound(maxJobs, states, steps, i);
    var s := states[i];
    if s.pc.TickStart? || s.pc.Scanning? {
      ScanCanStep(maxJobs, s);
    } else if s.pc.Confirming? {
      ConfirmationCanStep(maxJobs, s);
    } else if s.pc.Delivering? || s.pc.MainRecovered? || s.pc.ChildRead? || s.pc.BothRead? {
      DeliveryCanStep(maxJobs, s);
    } else {
      ExaminationCanStep(maxJobs, s);
    }
  }
}
