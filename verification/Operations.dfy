/** The operations on children as the code runs them: every await is a step, any number are under way at
    once through any number of main runtimes, and other writers append in between. */
module Operations {
  import opened Wrappers
  import opened Domain
  import opened EventLog
  import opened Audit
  import opened Seqs
  import M = TaskManager

  datatype Job =
    | Create(task: TaskId)
    | Cancel(task: TaskId, reason: string)
    | Resume(task: TaskId)
    | Input(task: TaskId, message: string, parent: EventId, effective: PermissionLevel)
    | Name(task: TaskId, name: string)
    | Send(task: TaskId, control: ControlEvent)
    | Delete(task: TaskId, reason: string)

  /** Where an operation stands. `seen` is the log its runtime last read, `retried` whether the record
      under way has already lost one append. */
  datatype Phase =
    | Deciding
    | Recovering
    | Opening(seen: seq<Event>, retried: bool)
    | Acting(seen: seq<Event>, retried: bool)
    | Answering(accept: bool, seen: seq<Event>, retried: bool)
    | Answered(accept: bool)
    | Abandoned

  /** `asked` is the main log up to the request, `effect` what has been written for the child so far. */
  datatype Op = Op(job: Job, request: EventId, asked: seq<Event>, effect: seq<Event>, phase: Phase)

  datatype World = World(logs: map<TaskId, seq<Event>>, tasks: set<TaskId>, ops: map<nat, Op>)

  datatype Step =
    | Ask(op: nat, job: Job, id: EventId)
    | Decide(op: nat, now: nat)
    | Recover(op: nat, deleted: bool)
    | Write(op: nat, id: EventId)
    | Other(event: Event)
    | Register(task: TaskId)
    | Unregister(task: TaskId)

  function LogOf(w: World, task: TaskId): seq<Event> {
    FileOf(w.logs, task)
  }

  // --- Recording ------------------------------------------------------------------------------------

  /** A record under way: what a runtime that has seen `seen` is writing to a log. */
  datatype Record = Record(task: TaskId, seen: seq<Event>, retried: bool, payload: AgentEvent,
                           provenance: EventProvenance)

  /** What one append of it comes to: the payload is refused on the log as seen, the log is as seen and
      the event is written, or it has grown, which the first time means another look. */
  datatype Outcome = Refused | Written | Stale | Lost

  function Attempt(r: Record, log: seq<Event>): Outcome {
    if !TaskTakes(r.task, r.seen, r.payload) then Refused
    else if log == r.seen then Written
    else if !r.retried then Stale
    else Lost
  }

  function Draft(r: Record, id: EventId, causation: Option<EventId>): Event {
    var sequence := match Fold(r.task, r.seen) case Success(p) => NextSequence(p) case Failure(_) => 0;
    Event(id, r.task, sequence, causation, r.provenance, r.payload)
  }

  function Append(w: World, event: Event): World {
    w.(logs := w.logs[event.task := LogOf(w, event.task) + [event]])
  }

  function SetOp(w: World, i: nat, op: Op): World {
    w.(ops := w.ops[i := op])
  }

  function ToAnswer(op: Op, accept: bool): Op {
    op.(phase := Answering(accept, op.asked, false))
  }

  // --- The steps ------------------------------------------------------------------------------------

  function OperationOf(job: Job): TaskOperation {
    match job
    case Create(_) => CreateChild
    case Cancel(task, reason) => CancelChild(task, reason)
    case Resume(task) => ResumeChild(task)
    case Input(task, message, parent, _) => InputChild(task, message, parent)
    case Name(task, name) => NameChild(task, name)
    case Send(task, control) => ControlChild(task, control)
    case Delete(task, reason) => DeleteChild(task, reason)
  }

  /** Checks made before anything is written. */
  predicate IsPermitted(job: Job) {
    match job
    case Create(task) => task != MAIN
    case Name(_, name) => M.IsName(name)
    case Send(_, control) => M.IsManageableControl(control)
    case _ => true
  }

  function RequestOf(job: Job): AgentEvent {
    Control(TaskOperationRequested(OperationOf(job)))
  }

  function AskRecord(main: seq<Event>, job: Job): Record {
    Record(MAIN, main, false, RequestOf(job), SYSTEM_PROVENANCE)
  }

  function DoAsk(w: World, i: nat, job: Job, id: EventId): World {
    var main := LogOf(w, MAIN);
    var r := AskRecord(main, job);
    var request := Draft(r, id, None);
    if i in w.ops || !IsPermitted(job) || ContainsId(main, id) || Attempt(r, main) != Written then w
    else SetOp(Append(w, request), i, Op(job, id, main + [request], [], Deciding))
  }

  predicate IsVouched(w: World, job: Job, now: nat) {
    job.Input? && job.effective.CanAuthorize()
      && ParentPermission(LogOf(w, MAIN), job.parent, now) == Some(job.effective)
  }

  /** The guards that do not need the child. */
  function Decided(w: World, op: Op, now: nat): Op {
    if op.job.Create? then ToAnswer(op, true)
    else if op.job.task == MAIN then ToAnswer(op, false)
    else
      match op.job
      case Cancel(task, _) => ToAnswer(op, task in w.tasks)
      case Input(_, _, _, _) => if IsVouched(w, op.job, now) then op.(phase := Recovering) else ToAnswer(op, false)
      case _ => op.(phase := Recovering)
  }

  /** Creation registers a fresh task. */
  function DoDecide(w: World, i: nat, now: nat): World {
    if i !in w.ops || !w.ops[i].phase.Deciding? || (w.ops[i].job.Create? && w.ops[i].job.task in w.tasks) then w
    else
      var op := w.ops[i];
      SetOp(w, i, Decided(w, op, now)).(tasks := if op.job.Create? then w.tasks + {op.job.task} else w.tasks)
  }

  /** A child in this status is not deleted. */
  predicate IsExecuting(status: Option<TaskStatus>) {
    status == Some(Running) || status == Some(Pausing) || status == Some(Cancelling)
  }

  /** The guards that do, on its log as read now. Whether the store deletes a log is up to the store. */
  function Recovered(w: World, op: Op, deleted: bool): Op {
    var task, log := op.job.task, LogOf(w, op.job.task);
    var over := IsOver(StatusOf(task, log));
    if log == [] || StatusOf(task, log).None? then ToAnswer(op, false)
    else
      match op.job
      case Resume(_) => ToAnswer(op, !over && task !in w.tasks)
      case Name(_, _) => if over then ToAnswer(op, false) else op.(phase := Acting(log, false))
      case Send(_, control) => if M.PassesExecutor(control) then op.(phase := Acting(log, false))
                               else ToAnswer(op, false)
      case Input(_, _, _, _) => op.(phase := if over then Opening(log, false) else Acting(log, false))
      case Delete(_, _) => ToAnswer(op, !IsExecuting(StatusOf(task, log)) && deleted)
      case _ => op
  }

  /** A resumed child is registered, a deleted one is not any more. */
  function RegisteredAfter(w: World, next: Op): set<TaskId> {
    if !next.phase.Answering? || !next.phase.accept then w.tasks
    else if next.job.Resume? then w.tasks + {next.job.task}
    else if next.job.Delete? then w.tasks - {next.job.task}
    else w.tasks
  }

  function DoRecover(w: World, i: nat, deleted: bool): World {
    if i !in w.ops || !w.ops[i].phase.Recovering? then w
    else
      var next := Recovered(w, w.ops[i], deleted);
      SetOp(w, i, next).(tasks := RegisteredAfter(w, next))
  }

  predicate IsWriting(phase: Phase) {
    phase.Opening? || phase.Acting? || phase.Answering?
  }

  function PayloadOf(op: Op): AgentEvent {
    match op.job
    case Input(_, message, _, effective) => M.InputPayload(message, effective, op.request)
    case Name(_, name) => Control(TaskNamed(name))
    case Send(_, control) => Control(control)
    case _ => Control(TaskQueued)
  }

  function ProvenanceOf(job: Job): EventProvenance {
    if job.Input? then ModelProvenance(Some(job.parent)) else SYSTEM_PROVENANCE
  }

  function AnswerOf(op: Op, accept: bool): AgentEvent {
    Control(if accept then TaskOperationAccepted(op.request, op.job.task) else TaskOperationRejected(op.request, ""))
  }

  /** What an operation is writing: a new cycle for a child that was over, the event it is for, or its
      answer. */
  function RecordOf(op: Op): Record
    requires IsWriting(op.phase)
  {
    match op.phase
    case Opening(seen, retried) => Record(op.job.task, seen, retried, Control(TaskQueued), SYSTEM_PROVENANCE)
    case Acting(seen, retried) => Record(op.job.task, seen, retried, PayloadOf(op), ProvenanceOf(op.job))
    case Answering(accept, seen, retried) => Record(MAIN, seen, retried, AnswerOf(op, accept), SYSTEM_PROVENANCE)
  }

  function AfterWritten(op: Op, event: Event): Op
    requires IsWriting(op.phase)
  {
    match op.phase
    case Opening(seen, _) => op.(effect := op.effect + [event], phase := Acting(seen + [event], false))
    case Acting(_, _) => ToAnswer(op.(effect := op.effect + [event]), true)
    case Answering(accept, _, _) => op.(phase := Answered(accept))
  }

  function LookAgain(op: Op, log: seq<Event>): Op
    requires IsWriting(op.phase)
  {
    match op.phase
    case Opening(_, _) => op.(phase := Opening(log, true))
    case Acting(_, _) => op.(phase := Acting(log, true))
    case Answering(accept, _, _) => op.(phase := Answering(accept, log, true))
  }

  /** A record that fails: a new cycle or a control that cannot be written is rejected; an input, a name
      and an answer return the error at once, and the request stays as it is. */
  function AfterFailure(op: Op): Op
    requires IsWriting(op.phase)
  {
    if op.phase.Opening? || (op.phase.Acting? && op.job.Send?) then ToAnswer(op, false) else op.(phase := Abandoned)
  }

  function DoWrite(w: World, i: nat, id: EventId): World {
    if i !in w.ops || !IsWriting(w.ops[i].phase) then w
    else
      var op := w.ops[i];
      var r := RecordOf(op);
      var event := Draft(r, id, Some(op.request));
      match Attempt(r, LogOf(w, r.task))
      case Written => SetOp(Append(w, event), i, AfterWritten(op, event))
      case Stale => SetOp(w, i, LookAgain(op, LogOf(w, r.task)))
      case _ => SetOp(w, i, AfterFailure(op))
  }

  /** What any other writer may append: whatever the task takes, but neither a request nor an answer. */
  predicate IsOther(w: World, e: Event) {
    && Fold(e.task, LogOf(w, e.task) + [e]).Success?
    && (e.task == MAIN ==> !IsRequest(e) && AnswerTo(e).None?)
  }

  /** A step that is not enabled leaves the world alone, so every sequence of steps is a run. */
  function Next(w: World, step: Step): World {
    match step
    case Ask(i, job, id) => DoAsk(w, i, job, id)
    case Decide(i, now) => DoDecide(w, i, now)
    case Recover(i, deleted) => DoRecover(w, i, deleted)
    case Write(i, id) => DoWrite(w, i, id)
    case Other(e) => if IsOther(w, e) then Append(w, e) else w
    case Register(task) => w.(tasks := w.tasks + {task})
    case Unregister(task) => w.(tasks := w.tasks - {task})
  }

  function Run(w: World, steps: seq<Step>): World {
    if steps == [] then w else Next(Run(w, steps[..|steps| - 1]), steps[|steps| - 1])
  }

  // --- Logs -----------------------------------------------------------------------------------------

  ghost predicate Replays(w: World) {
    forall t :: t in w.logs ==> Fold(t, w.logs[t]).Success?
  }

  lemma LogReplays(w: World, task: TaskId)
    requires Replays(w)
    ensures Fold(task, LogOf(w, task)).Success?
  {}

  lemma DraftIsTaken(r: Record, log: seq<Event>, id: EventId, causation: Option<EventId>)
    requires Attempt(r, log) == Written
    ensures Fold(r.task, log + [Draft(r, id, causation)]).Success?
  {
    var event := Draft(r, id, causation);
    FoldIsContiguous(r.task, log);
    AdmitsIsAcceptance(Fold(r.task, log).value, event);
    FoldSnoc(r.task, log, event);
  }

  /** The event a step appends, if any. */
  function WrittenBy(w: World, step: Step): Option<Event> {
    match step
    case Ask(_, job, id) =>
      if DoAsk(w, step.op, job, id) == w then None else Some(Draft(AskRecord(LogOf(w, MAIN), job), id, None))
    case Write(i, id) =>
      if i !in w.ops || !IsWriting(w.ops[i].phase)
      || Attempt(RecordOf(w.ops[i]), LogOf(w, RecordOf(w.ops[i]).task)) != Written then None
      else Some(Draft(RecordOf(w.ops[i]), id, Some(w.ops[i].request)))
    case Other(e) => if IsOther(w, e) then Some(e) else None
    case _ => None
  }

  /** What appending at most one event its task takes does to the logs. */
  ghost predicate GrowsBy(w: World, t: World, written: Option<Event>) {
    match written
    case None => t.logs == w.logs
    case Some(e) => t.logs == Append(w, e).logs && Fold(e.task, LogOf(w, e.task) + [e]).Success?
  }

  lemma GrowthKeepsLogs(w: World, t: World, written: Option<Event>)
    requires Replays(w) && GrowsBy(w, t, written)
    ensures Replays(t) && forall task :: LogOf(w, task) <= LogOf(t, task)
  {}

  lemma AskGrows(w: World, i: nat, job: Job, id: EventId, t: World)
    requires t == DoAsk(w, i, job, id)
    ensures GrowsBy(w, t, WrittenBy(w, Ask(i, job, id)))
  {
    if t != w {
      DraftIsTaken(AskRecord(LogOf(w, MAIN), job), LogOf(w, MAIN), id, None);
    }
  }

  lemma WriteGrows(w: World, i: nat, id: EventId, t: World)
    requires t == DoWrite(w, i, id)
    ensures GrowsBy(w, t, WrittenBy(w, Write(i, id)))
  {
    if i in w.ops && IsWriting(w.ops[i].phase) {
      var op := w.ops[i];
      var r := RecordOf(op);
      if Attempt(r, LogOf(w, r.task)) == Written {
        DraftIsTaken(r, LogOf(w, r.task), id, Some(op.request));
      }
    }
  }

  /** A step appends at most the event it writes, which its task takes. */
  lemma StepGrows(w: World, step: Step, t: World)
    requires t == Next(w, step)
    ensures GrowsBy(w, t, WrittenBy(w, step))
  {
    match step {
      case Ask(i, job, id) => AskGrows(w, i, job, id, t);
      case Write(i, id) => WriteGrows(w, i, id, t);
      case _ =>
    }
  }

  lemma StepKeepsLogs(w: World, step: Step, t: World)
    requires Replays(w) && t == Next(w, step)
    ensures Replays(t) && forall task :: LogOf(w, task) <= LogOf(t, task)
  {
    StepGrows(w, step, t);
    GrowthKeepsLogs(w, t, WrittenBy(w, step));
  }

  // --- The audit trail ------------------------------------------------------------------------------

  function TrailOf(w: World): Trail {
    Trail(LogOf(w, MAIN), map i | i in w.ops :: w.ops[i].request, set i | i in w.ops && w.ops[i].phase.Answered?)
  }

  /** Only operations that passed their guards, and have a child for a target, write to its log. */
  predicate HasChild(op: Op) {
    op.phase.Recovering? || op.phase.Opening? || op.phase.Acting? ==> op.job.task != MAIN
  }

  lemma SameTrail(w: World, t: World)
    requires LogOf(t, MAIN) == LogOf(w, MAIN) && t.ops.Keys == w.ops.Keys
    requires forall i :: i in w.ops ==> t.ops[i].request == w.ops[i].request
                                        && (t.ops[i].phase.Answered? <==> w.ops[i].phase.Answered?)
    ensures TrailOf(t) == TrailOf(w)
  {
    assert TrailOf(t).requests == TrailOf(w).requests;
  }

  /** An operation that moves on without answering, and perhaps writes to its child. */
  lemma QuietMove(w: World, t: World, i: nat, op: Op)
    requires i in w.ops && t.ops == w.ops[i := op] && LogOf(t, MAIN) == LogOf(w, MAIN)
    requires op.request == w.ops[i].request && !op.phase.Answered? && !w.ops[i].phase.Answered?
    ensures TrailOf(t) == TrailOf(w)
  {
    assert t.ops.Keys == w.ops.Keys;
    SameTrail(w, t);
  }

  /** What a step means for the trail. */
  function ActOf(w: World, step: Step): Act {
    match WrittenBy(w, step)
    case None => Nothing
    case Some(e) =>
      match step
      case Ask(i, _, _) => Begin(i, e)
      case Write(i, _) => if e.task == MAIN then Reply(i, e) else Nothing
      case _ => ElseOn(e)
  }

  lemma AskBegins(w: World, i: nat, job: Job, id: EventId, t: World, request: Event)
    requires t == DoAsk(w, i, job, id) && t != w && request == Draft(AskRecord(LogOf(w, MAIN), job), id, None)
    ensures IsAllowed(TrailOf(w), Begin(i, request)) && TrailOf(t) == After(TrailOf(w), Begin(i, request))
  {
    assert LogOf(t, MAIN) == LogOf(w, MAIN) + [request];
    assert TrailOf(t).requests == TrailOf(w).requests[i := id];
    assert TrailOf(t).answered == TrailOf(w).answered;
  }

  lemma AnswerReplies(w: World, i: nat, t: World, e: Event, answered: Op)
    requires i in w.ops && w.ops[i].phase.Answering? && Answers(e, w.ops[i].request)
    requires answered.request == w.ops[i].request && answered.phase.Answered?
    requires LogOf(t, MAIN) == LogOf(w, MAIN) + [e] && t.ops == w.ops[i := answered]
    ensures IsAllowed(TrailOf(w), Reply(i, e)) && TrailOf(t) == After(TrailOf(w), Reply(i, e))
  {
    assert TrailOf(t).requests == TrailOf(w).requests;
    assert TrailOf(t).answered == TrailOf(w).answered + {i};
  }

  lemma WriteOnTrail(w: World, i: nat, id: EventId, t: World)
    requires i in w.ops && IsWriting(w.ops[i].phase) && HasChild(w.ops[i]) && t == DoWrite(w, i, id)
    ensures var act := ActOf(w, Write(i, id)); IsAllowed(TrailOf(w), act) && TrailOf(t) == After(TrailOf(w), act)
  {
    var op := w.ops[i];
    var event := Draft(RecordOf(op), id, Some(op.request));
    if op.phase.Answering? && Attempt(RecordOf(op), LogOf(w, MAIN)) == Written {
      AnswerReplies(w, i, t, event, op.(phase := Answered(op.phase.accept)));
    } else {
      QuietMove(w, t, i, t.ops[i]);
    }
  }

  function ElseOn(e: Event): Act {
    if e.task == MAIN then Else(e) else Nothing
  }

  lemma OtherOnTrail(w: World, e: Event, t: World)
    requires t == Append(w, e) && (e.task == MAIN ==> !IsRequest(e) && AnswerTo(e).None?)
    ensures IsAllowed(TrailOf(w), ElseOn(e)) && TrailOf(t) == After(TrailOf(w), ElseOn(e))
  {
    assert TrailOf(t).requests == TrailOf(w).requests && TrailOf(t).answered == TrailOf(w).answered;
  }

  /** Deciding and recovering write nothing. */
  lemma GuardsOnTrail(w: World, step: Step, t: World)
    requires t == Next(w, step) && (step.Decide? || step.Recover?)
    ensures TrailOf(t) == TrailOf(w)
  {
    if t != w {
      QuietMove(w, t, step.op, t.ops[step.op]);
    }
  }

  ghost predicate OnTrail(w: World, t: World, act: Act) {
    IsAllowed(TrailOf(w), act) && TrailOf(t) == After(TrailOf(w), act)
  }

  /** Every step is one of the things that can happen to the trail. */
  lemma StepOnTrail(w: World, step: Step, t: World)
    requires t == Next(w, step) && forall i :: i in w.ops ==> HasChild(w.ops[i])
    ensures OnTrail(w, t, ActOf(w, step))
  {
    match step {
      case Ask(i, job, id) =>
        if t != w {
          AskBegins(w, i, job, id, t, Draft(AskRecord(LogOf(w, MAIN), job), id, None));
        }
      case Decide(_, _) => GuardsOnTrail(w, step, t);
      case Recover(_, _) => GuardsOnTrail(w, step, t);
      case Write(i, id) =>
        if i in w.ops && IsWriting(w.ops[i].phase) {
          WriteOnTrail(w, i, id, t);
        }
      case Other(e) =>
        if IsOther(w, e) {
          OtherOnTrail(w, e, t);
        }
      case _ => SameTrail(w, t);
    }
  }

  // --- What an operation has done -------------------------------------------------------------------

  predicate ActsOnChild(job: Job) {
    job.Input? || job.Name? || job.Send?
  }

  /** What precedes the event an operation is for: nothing, or the new cycle for an input. */
  predicate IsPrepared(job: Job, effect: seq<Event>) {
    effect == [] || (job.Input? && |effect| == 1 && effect[0].payload == Control(TaskQueued))
  }

  /** The operation has had its effect: the event it is for, on the authority it claims, last. */
  predicate IsDone(op: Op) {
    if !ActsOnChild(op.job) then op.effect == []
    else
      && op.effect != [] && IsPrepared(op.job, op.effect[..|op.effect| - 1])
      && var e := op.effect[|op.effect| - 1];
         e.payload == PayloadOf(op) && e.provenance == ProvenanceOf(op.job) && e.causation == Some(op.request)
  }

  predicate IsSettled(op: Op, accept: bool) {
    if accept then IsDone(op) else op.effect == []
  }

  predicate Says(log: seq<Event>, payload: AgentEvent) {
    exists k :: 0 <= k < |log| && log[k].payload == payload
  }

  predicate IsSeen(w: World, task: TaskId, seen: seq<Event>) {
    seen <= LogOf(w, task) && Fold(task, seen).Success?
  }

  predicate PhaseSane(w: World, op: Op) {
    match op.phase
    case Deciding => op.effect == []
    case Recovering => op.job.task != MAIN && op.effect == [] && !op.job.Create? && !op.job.Cancel?
    case Opening(seen, _) => op.job.task != MAIN && op.effect == [] && op.job.Input? && IsSeen(w, op.job.task, seen)
    case Acting(seen, retried) =>
      && op.job.task != MAIN && ActsOnChild(op.job) && IsPrepared(op.job, op.effect) && IsSeen(w, op.job.task, seen)
      && (op.job.Name? && !retried ==> !IsOver(StatusOf(op.job.task, seen)))
    case Answering(accept, seen, _) => IsSettled(op, accept) && IsSeen(w, MAIN, seen)
    case Answered(accept) => IsSettled(op, accept) && Says(LogOf(w, MAIN), AnswerOf(op, accept))
    case Abandoned => true
  }

  /** The guards let it go ahead. */
  predicate GoesAhead(op: Op) {
    || op.effect != [] || op.phase.Recovering? || op.phase.Opening? || op.phase.Acting?
    || op.phase == Answered(true) || (op.phase.Answering? && op.phase.accept)
  }

  /** The main log holds a direct external input with the permission the job claims, valid at some time. */
  ghost predicate IsVouchedOnce(w: World, job: Job) {
    exists now: nat :: IsVouched(w, job, now)
  }

  /** An event the operation has written: the new cycle for an input, or what it is for. */
  predicate IsOwn(op: Op, e: Event) {
    || (op.job.Input? && e.payload == Control(TaskQueued))
    || (&& ActsOnChild(op.job) && e.payload == PayloadOf(op) && e.provenance == ProvenanceOf(op.job)
        && e.causation == Some(op.request))
  }

  ghost predicate OpSane(w: World, op: Op) {
    && IsSeen(w, MAIN, op.asked) && PhaseSane(w, op)
    && (forall e :: e in op.effect ==> e in LogOf(w, op.job.task) && IsOwn(op, e))
    && (op.job.Input? && GoesAhead(op) ==> IsVouchedOnce(w, op.job))
  }

  ghost predicate AllSane(w: World) {
    forall i :: i in w.ops ==> OpSane(w, w.ops[i])
  }

  ghost predicate LogsGrow(w: World, t: World) {
    forall task :: LogOf(w, task) <= LogOf(t, task)
  }

  lemma VouchedStays(w: World, t: World, job: Job, now: nat)
    requires LogOf(w, MAIN) <= LogOf(t, MAIN) && IsVouched(w, job, now)
    ensures IsVouched(t, job, now)
  {
    var before, after := LogOf(w, MAIN), LogOf(t, MAIN);
    assert after == before + after[|before|..];
    ParentSurvives(before, after[|before|..], job.parent, now);
  }

  lemma VouchedOnceStays(w: World, t: World, job: Job)
    requires LogOf(w, MAIN) <= LogOf(t, MAIN) && IsVouchedOnce(w, job)
    ensures IsVouchedOnce(t, job)
  {
    var now: nat :| IsVouched(w, job, now);
    VouchedStays(w, t, job, now);
  }

  lemma OpStaysSane(w: World, t: World, op: Op)
    requires LogsGrow(w, t) && OpSane(w, op)
    ensures OpSane(t, op)
  {
    assert LogOf(w, MAIN) <= LogOf(t, MAIN) && LogOf(w, op.job.task) <= LogOf(t, op.job.task);
    if op.job.Input? && GoesAhead(op) {
      VouchedOnceStays(w, t, op.job);
    }
  }

  lemma OthersStaySane(w: World, t: World, i: nat)
    requires LogsGrow(w, t) && AllSane(w) && (i in t.ops ==> OpSane(t, t.ops[i]))
    requires forall j :: j in t.ops && j != i ==> j in w.ops && t.ops[j] == w.ops[j]
    ensures AllSane(t)
  {
    forall j | j in t.ops
      ensures OpSane(t, t.ops[j])
    {
      if j != i {
        OpStaysSane(w, t, w.ops[j]);
      }
    }
  }

  // --- Every step keeps it --------------------------------------------------------------------------

  lemma AskedIsSane(w: World, i: nat, job: Job, id: EventId, t: World)
    requires t == DoAsk(w, i, job, id) && t != w
    ensures i in t.ops && OpSane(t, t.ops[i])
  {
    var r := AskRecord(LogOf(w, MAIN), job);
    DraftIsTaken(r, LogOf(w, MAIN), id, None);
    assert t.ops[i].asked == LogOf(t, MAIN);
  }

  lemma DecidedIsSane(w: World, op: Op, now: nat)
    requires OpSane(w, op) && op.phase.Deciding?
    ensures OpSane(w, Decided(w, op, now))
  {
    if op.job.Input? && IsVouched(w, op.job, now) {
      assert IsVouchedOnce(w, op.job);
    }
  }

  lemma RecoveredIsSane(w: World, op: Op, deleted: bool)
    requires OpSane(w, op) && op.phase.Recovering?
    ensures OpSane(w, Recovered(w, op, deleted))
  {}

  /** The event is the next one of the log the record was drafted on. */
  predicate IsWritten(op: Op, t: World, event: Event)
    requires IsWriting(op.phase)
  {
    var r := RecordOf(op);
    && event.payload == r.payload && event.provenance == r.provenance && event.causation == Some(op.request)
    && LogOf(t, r.task) == r.seen + [event] && Fold(r.task, r.seen + [event]).Success?
  }

  lemma OpenedPhaseIsSane(t: World, op: Op, event: Event)
    requires op.phase.Opening? && PhaseSane(t, op) && IsWritten(op, t, event)
    ensures PhaseSane(t, AfterWritten(op, event)) && AfterWritten(op, event).effect == [event]
  {}

  lemma OpenedIsSane(t: World, op: Op, event: Event)
    requires OpSane(t, op) && op.phase.Opening? && IsWritten(op, t, event)
    ensures OpSane(t, AfterWritten(op, event))
  {
    OpenedPhaseIsSane(t, op, event);
    assert LogOf(t, op.job.task)[|op.phase.seen|] == event;
    assert IsOwn(AfterWritten(op, event), event);
  }

  lemma DoneByActing(op: Op, event: Event)
    requires op.phase.Acting? && ActsOnChild(op.job) && IsPrepared(op.job, op.effect)
    requires event.payload == PayloadOf(op) && event.provenance == ProvenanceOf(op.job)
             && event.causation == Some(op.request)
    ensures IsDone(AfterWritten(op, event))
  {
    SnocParts(op.effect, event);
  }

  lemma ActedPhaseIsSane(t: World, op: Op, event: Event)
    requires op.phase.Acting? && PhaseSane(t, op) && IsWritten(op, t, event) && IsSeen(t, MAIN, op.asked)
    ensures PhaseSane(t, AfterWritten(op, event)) && AfterWritten(op, event).effect == op.effect + [event]
    ensures IsOwn(op, event)
  {
    DoneByActing(op, event);
  }

  /** What is its own depends on the job and the request alone. */
  lemma OwnStays(op: Op, next: Op)
    requires next.job == op.job && next.request == op.request
    ensures forall e :: IsOwn(next, e) <==> IsOwn(op, e)
  {}

  lemma ActedIsSane(t: World, op: Op, event: Event)
    requires OpSane(t, op) && op.phase.Acting? && IsWritten(op, t, event)
    ensures OpSane(t, AfterWritten(op, event))
  {
    ActedPhaseIsSane(t, op, event);
    OwnStays(op, AfterWritten(op, event));
    assert LogOf(t, op.job.task)[|op.phase.seen|] == event;
  }

  lemma AnsweredIsSane(t: World, op: Op, event: Event)
    requires OpSane(t, op) && op.phase.Answering? && IsWritten(op, t, event)
    ensures OpSane(t, AfterWritten(op, event))
  {
    assert LogOf(t, MAIN)[|op.phase.seen|].payload == AnswerOf(op, op.phase.accept);
  }

  lemma WrittenIsSane(w: World, op: Op, t: World, event: Event)
    requires OpSane(w, op) && IsWriting(op.phase) && LogsGrow(w, t) && IsWritten(op, t, event)
    ensures OpSane(t, AfterWritten(op, event))
  {
    OpStaysSane(w, t, op);
    match op.phase {
      case Opening(_, _) => OpenedIsSane(t, op, event);
      case Acting(_, _) => ActedIsSane(t, op, event);
      case Answering(_, _, _) => AnsweredIsSane(t, op, event);
    }
  }

  lemma StaleIsSane(w: World, op: Op)
    requires OpSane(w, op) && IsWriting(op.phase) && Fold(RecordOf(op).task, LogOf(w, RecordOf(op).task)).Success?
    ensures OpSane(w, LookAgain(op, LogOf(w, RecordOf(op).task)))
  {}

  lemma FailedIsSane(w: World, op: Op)
    requires OpSane(w, op) && IsWriting(op.phase)
    ensures OpSane(w, AfterFailure(op))
  {}

  lemma WriteIsSane(w: World, i: nat, id: EventId, t: World)
    requires Replays(w) && AllSane(w) && i in w.ops && IsWriting(w.ops[i].phase) && t == DoWrite(w, i, id)
             && LogsGrow(w, t)
    ensures OpSane(t, t.ops[i])
  {
    var op := w.ops[i];
    var r := RecordOf(op);
    var log, event := LogOf(w, r.task), Draft(r, id, Some(op.request));
    assert OpSane(w, op);
    match Attempt(r, log) {
      case Written =>
        DraftIsTaken(r, log, id, Some(op.request));
        WrittenIsSane(w, op, t, event);
      case Stale =>
        StaleIsSane(w, op);
        OpStaysSane(w, t, t.ops[i]);
      case _ =>
        FailedIsSane(w, op);
        OpStaysSane(w, t, t.ops[i]);
    }
  }

  lemma OpStepKeepsSane(w: World, t: World, i: nat)
    requires AllSane(w) && LogsGrow(w, t) && i in t.ops && OpSane(t, t.ops[i])
    requires forall j :: j in t.ops && j != i ==> j in w.ops && t.ops[j] == w.ops[j]
    ensures AllSane(t)
  {
    OthersStaySane(w, t, i);
  }

  lemma GuardKeepsSane(w: World, t: World, i: nat, next: Op)
    requires AllSane(w) && i in w.ops && t.logs == w.logs && t.ops == w.ops[i := next] && OpSane(w, next)
    ensures AllSane(t)
  {
    OpStaysSane(w, t, next);
    OpStepKeepsSane(w, t, i);
  }

  lemma WriteKeepsSane(w: World, i: nat, id: EventId, t: World)
    requires Replays(w) && AllSane(w) && t == DoWrite(w, i, id) && LogsGrow(w, t)
    ensures AllSane(t)
  {
    if i in w.ops && IsWriting(w.ops[i].phase) {
      WriteIsSane(w, i, id, t);
      OpStepKeepsSane(w, t, i);
    }
  }

  lemma SameOpsStaySane(w: World, t: World)
    requires AllSane(w) && LogsGrow(w, t) && t.ops == w.ops
    ensures AllSane(t)
  {
    forall j | j in t.ops
      ensures OpSane(t, t.ops[j])
    {
      OpStaysSane(w, t, w.ops[j]);
    }
  }

  lemma AskKeepsSane(w: World, i: nat, job: Job, id: EventId, t: World)
    requires AllSane(w) && t == DoAsk(w, i, job, id) && LogsGrow(w, t)
    ensures AllSane(t)
  {
    if t != w {
      AskedIsSane(w, i, job, id, t);
      OpStepKeepsSane(w, t, i);
    }
  }

  lemma StepKeepsSane(w: World, step: Step, t: World)
    requires Replays(w) && AllSane(w) && t == Next(w, step)
    ensures Replays(t) && AllSane(t) && LogsGrow(w, t)
  {
    StepKeepsLogs(w, step, t);
    match step {
      case Ask(i, job, id) => AskKeepsSane(w, i, job, id, t);
      case Decide(i, now) =>
        if t != w {
          DecidedIsSane(w, w.ops[i], now);
          GuardKeepsSane(w, t, i, Decided(w, w.ops[i], now));
        }
      case Recover(i, deleted) =>
        if t != w {
          RecoveredIsSane(w, w.ops[i], deleted);
          GuardKeepsSane(w, t, i, Recovered(w, w.ops[i], deleted));
        }
      case Write(i, id) => WriteKeepsSane(w, i, id, t);
      case _ => SameOpsStaySane(w, t);
    }
  }

  // --- Runs -----------------------------------------------------------------------------------------

  /** No operation under way, and an audit trail in order without open requests. */
  ghost predicate IsStart(w: World) {
    w.ops == map[] && Replays(w) && AuditOk(LogOf(w, MAIN)) && AllAnswered(LogOf(w, MAIN))
  }

  ghost predicate Sound(w: World) {
    Replays(w) && AllSane(w) && TrailOk(TrailOf(w))
  }

  lemma StartIsSound(w: World)
    requires IsStart(w)
    ensures Sound(w)
  {}

  lemma StepKeepsSound(w: World, step: Step, t: World)
    requires Sound(w) && t == Next(w, step)
    ensures Sound(t) && LogsGrow(w, t)
  {
    StepKeepsSane(w, step, t);
    forall i | i in w.ops
      ensures HasChild(w.ops[i])
    {
      assert OpSane(w, w.ops[i]);
    }
    StepOnTrail(w, step, t);
    EveryActKeepsTrail(TrailOf(w), ActOf(w, step));
  }

  lemma {:induction false} EveryRunIsSound(w: World, steps: seq<Step>)
    requires Sound(w)
    ensures Sound(Run(w, steps))
  {
    if steps != [] {
      var before := Run(w, steps[..|steps| - 1]);
      EveryRunIsSound(w, steps[..|steps| - 1]);
      StepKeepsSound(before, steps[|steps| - 1], Run(w, steps));
    }
  }

  /** The request belongs to an operation that has not answered it. */
  predicate IsLeftOpen(w: World, request: EventId) {
    exists i :: i in w.ops && w.ops[i].request == request && !w.ops[i].phase.Answered?
  }

  lemma OpenIsOwned(w: World, request: EventId)
    ensures IsLeftOpen(w, request) ==> Owned(TrailOf(w), request)
  {
    if IsLeftOpen(w, request) {
      var j :| j in w.ops && w.ops[j].request == request && !w.ops[j].phase.Answered?;
      assert j in TrailOf(w).requests && TrailOf(w).requests[j] == request;
    }
  }

  lemma OpenIffOwned(w: World, request: EventId)
    requires Sound(w) && Owned(TrailOf(w), request)
    ensures HasAnswer(LogOf(w, MAIN), request) <==> !IsLeftOpen(w, request)
  {
    var i :| i in TrailOf(w).requests && TrailOf(w).requests[i] == request;
    assert InOrder(TrailOf(w), i);
    if IsLeftOpen(w, request) {
      var j :| j in w.ops && w.ops[j].request == request && !w.ops[j].phase.Answered?;
      assert j in TrailOf(w).requests && TrailOf(w).requests[j] == request;
      assert InOrder(TrailOf(w), j);
    }
  }

  /** Over every interleaving of operations with each other and with other writers: every answer in the
      main log answers one earlier request, no request is answered twice, and a request has no answer
      exactly as long as its operation is under way or has been abandoned. */
  lemma EveryRunIsAudited(start: World, steps: seq<Step>)
    requires IsStart(start)
    ensures var w := Run(start, steps);
            var main := LogOf(w, MAIN);
            && AuditOk(main)
            && forall k :: 0 <= k < |main| && IsRequest(main[k]) ==>
                             (HasAnswer(main, main[k].id) <==> !IsLeftOpen(w, main[k].id))
  {
    StartIsSound(start);
    EveryRunIsSound(start, steps);
    var w := Run(start, steps);
    var main := LogOf(w, MAIN);
    forall k | 0 <= k < |main| && IsRequest(main[k])
      ensures HasAnswer(main, main[k].id) <==> !IsLeftOpen(w, main[k].id)
    {
      OpenIsOwned(w, main[k].id);
      if Owned(TrailOf(w), main[k].id) {
        OpenIffOwned(w, main[k].id);
      }
    }
  }

  /** Over every interleaving: an accepted operation has had its whole effect, a rejected one has had none,
      and whatever an operation has written is its own and in its child's log. */
  lemma AnswersTellTheEffect(start: World, steps: seq<Step>, i: nat)
    requires IsStart(start) && i in Run(start, steps).ops
    ensures var w := Run(start, steps);
            var op := w.ops[i];
            && (forall e :: e in op.effect ==> e in LogOf(w, op.job.task) && IsOwn(op, e))
            && (op.phase.Answered? ==>
                  && Says(LogOf(w, MAIN), AnswerOf(op, op.phase.accept))
                  && if op.phase.accept then IsDone(op) else op.effect == [])
  {
    StartIsSound(start);
    EveryRunIsSound(start, steps);
    assert OpSane(Run(start, steps), Run(start, steps).ops[i]);
  }

  lemma OnlyAnsweringAnswers(w: World, i: nat, id: EventId, next: Op)
    requires i in w.ops && !w.ops[i].phase.Answered? && next == DoWrite(w, i, id).ops[i] && next.phase.Answered?
    ensures w.ops[i].phase.Answering? && w.ops[i].phase.accept == next.phase.accept
  {}

  /** And the effect comes first: the step that writes an acceptance finds it complete, in the child's log,
      and a rejection is written with nothing there. */
  lemma EffectPrecedesAnswer(start: World, steps: seq<Step>, i: nat, id: EventId, w: World, next: Op)
    requires IsStart(start) && w == Run(start, steps) && i in w.ops && !w.ops[i].phase.Answered?
    requires next == DoWrite(w, i, id).ops[i] && next.phase.Answered?
    ensures var op := w.ops[i];
            && (if next.phase.accept then IsDone(op) else op.effect == [])
            && (forall e :: e in op.effect ==> e in LogOf(w, op.job.task) && IsOwn(op, e))
  {
    StartIsSound(start);
    EveryRunIsSound(start, steps);
    OnlyAnsweringAnswers(w, i, id, next);
    assert OpSane(w, w.ops[i]);
  }

  /** An input in a child's log, and what the main log knows of its authority: it names a parent, which is
      a direct external input with the very permission the input carries, valid at some time. */
  ghost predicate IsVouchedInput(w: World, parent: EventId, e: Event) {
    && e.payload.Ingress? && e.payload.ingress.ContextReceived? && e.provenance.authorityParent == Some(parent)
    && exists now: nat :: ParentPermission(LogOf(w, MAIN), parent, now) == Some(e.payload.ingress.context.permission)
  }

  lemma OwnInputIsVouched(w: World, op: Op, e: Event)
    requires OpSane(w, op) && e in op.effect && e.payload.Ingress?
    ensures op.job.Input? && e in LogOf(w, op.job.task) && IsVouchedInput(w, op.job.parent, e)
  {
    assert IsOwn(op, e);
    var now: nat :| IsVouched(w, op.job, now);
    assert ParentPermission(LogOf(w, MAIN), op.job.parent, now) == Some(e.payload.ingress.context.permission);
  }

  /** Over every interleaving: every input an operation has put into a child's log, answered, abandoned or
      still under way, names an authority parent in the main log that is a direct external input with the
      same effective permission. */
  lemma DelegatedInputsAreVouched(start: World, steps: seq<Step>, i: nat, e: Event)
    requires IsStart(start) && i in Run(start, steps).ops
    requires e in Run(start, steps).ops[i].effect && e.payload.Ingress?
    ensures var w := Run(start, steps);
            var job := w.ops[i].job;
            job.Input? && e in LogOf(w, job.task) && IsVouchedInput(w, job.parent, e)
  {
    StartIsSound(start);
    EveryRunIsSound(start, steps);
    OwnInputIsVouched(Run(start, steps), Run(start, steps).ops[i], e);
  }

  // --- Where the events of a child's log come from --------------------------------------------------

  /** Everything an operation wrote, it keeps on record. */
  ghost predicate EffectsKept(w: World, t: World) {
    forall i, e :: i in w.ops && e in w.ops[i].effect ==> i in t.ops && e in t.ops[i].effect
  }

  ghost predicate InSomeEffect(w: World, e: Event) {
    exists i :: i in w.ops && e in w.ops[i].effect
  }

  lemma WriteKeepsEffects(w: World, i: nat, id: EventId, t: World)
    requires t == DoWrite(w, i, id)
    ensures EffectsKept(w, t)
  {}

  lemma StepKeepsEffects(w: World, step: Step, t: World)
    requires t == Next(w, step)
    ensures EffectsKept(w, t)
  {
    match step {
      case Write(i, id) => WriteKeepsEffects(w, i, id, t);
      case _ =>
    }
  }

  /** What a step appends to a child's log is another writer's, or is on record with its operation. */
  lemma AppendedIsKnown(w: World, step: Step, t: World, e: Event)
    requires t == Next(w, step) && WrittenBy(w, step) == Some(e) && e.task != MAIN
    ensures step == Other(e) || InSomeEffect(t, e)
  {
    match step {
      case Write(i, id) => assert e in t.ops[i].effect;
      case _ =>
    }
  }

  lemma {:induction false} ChildLogIsAccounted(start: World, steps: seq<Step>, task: TaskId, e: Event)
    requires task != MAIN && e in LogOf(Run(start, steps), task)
    ensures e in LogOf(start, task) || Other(e) in steps || InSomeEffect(Run(start, steps), e)
  {
    if steps != [] {
      var init, step := steps[..|steps| - 1], steps[|steps| - 1];
      var w, t := Run(start, init), Run(start, steps);
      InitLast(steps);
      StepGrows(w, step, t);
      StepKeepsEffects(w, step, t);
      if e in LogOf(w, task) {
        ChildLogIsAccounted(start, init, task, e);
      } else {
        AppendedIsKnown(w, step, t, e);
      }
    }
  }

  /** So every input in a child's log that was not there at the start, and that no other writer put there,
      is the input of one operation: it is caused by that operation's request and vouched for. */
  lemma EveryDelegatedInputIsVouched(start: World, steps: seq<Step>, task: TaskId, e: Event)
    requires IsStart(start) && task != MAIN && e in LogOf(Run(start, steps), task) && e.payload.Ingress?
    requires e !in LogOf(start, task) && Other(e) !in steps
    ensures var w := Run(start, steps);
            exists i :: i in w.ops && w.ops[i].job.Input? && e.causation == Some(w.ops[i].request)
                        && e in w.ops[i].effect && IsVouchedInput(w, w.ops[i].job.parent, e)
  {
    var w := Run(start, steps);
    ChildLogIsAccounted(start, steps, task, e);
    var i :| i in w.ops && e in w.ops[i].effect;
    DelegatedInputsAreVouched(start, steps, i, e);
    AnswersTellTheEffect(start, steps, i);
    assert IsOwn(w.ops[i], e);
  }

  // --- When a request stays open --------------------------------------------------------------------

  lemma AnswerIsTaken(main: seq<Event>, op: Op, accept: bool)
    requires Fold(MAIN, main).Success?
    ensures TaskTakes(MAIN, main, AnswerOf(op, accept))
  {
    FoldIsContiguous(MAIN, main);
    M.MainTakesManagement(Fold(MAIN, main).value, AnswerOf(op, accept).control);
  }

  /** The record under way has lost one append and the log has grown again. */
  predicate LosesTwice(w: World, op: Op)
    requires IsWriting(op.phase)
  {
    RecordOf(op).retried && LogOf(w, RecordOf(op).task) != RecordOf(op).seen
  }

  /** The payload cannot be refused, unless it is a control, a new cycle, or a name for a task now over. */
  lemma RefusedExactlyWhen(w: World, op: Op)
    requires OpSane(w, op) && IsWriting(op.phase) && !op.phase.Opening? && !(op.phase.Acting? && op.job.Send?)
    ensures TaskTakes(RecordOf(op).task, RecordOf(op).seen, RecordOf(op).payload) <==>
            !(op.phase.Acting? && op.job.Name? && IsOver(StatusOf(op.job.task, op.phase.seen)))
  {
    var r := RecordOf(op);
    if op.phase.Answering? {
      AnswerIsTaken(r.seen, op, op.phase.accept);
    } else if op.job.Input? {
      M.InputIsTaken(Fold(r.task, r.seen).value, op.job.message, op.job.effective, op.request);
    } else {
      M.NameIsTaken(Fold(r.task, r.seen).value, op.job.name);
    }
  }

  /** What a failed record means, in terms of its outcome. */
  lemma AbandonedByOutcome(w: World, i: nat, id: EventId)
    requires i in w.ops && IsWriting(w.ops[i].phase)
    ensures var op, next := w.ops[i], DoWrite(w, i, id).ops[i];
            var outcome := Attempt(RecordOf(op), LogOf(w, RecordOf(op).task));
            && (next.phase.Abandoned? <==>
                  (outcome == Refused || outcome == Lost) && !op.phase.Opening? && !(op.phase.Acting? && op.job.Send?))
            && (next.phase.Abandoned? ==> next.effect == op.effect)
  {}

  /** A write abandons its operation, leaving what it has written so far, exactly when an input, a name or
      an answer loses twice, or a name, having lost once, finds its task over. */
  lemma AbandonedExactlyWhen(w: World, i: nat, id: EventId)
    requires AllSane(w) && i in w.ops && IsWriting(w.ops[i].phase)
    ensures var op, next := w.ops[i], DoWrite(w, i, id).ops[i];
            && (next.phase.Abandoned? <==>
                  || (op.phase.Answering? && LosesTwice(w, op))
                  || (op.phase.Acting? && !op.job.Send? && LosesTwice(w, op))
                  || (op.phase.Acting? && op.job.Name? && op.phase.retried
                      && IsOver(StatusOf(op.job.task, op.phase.seen))))
            && (next.phase.Abandoned? ==> next.effect == op.effect)
  {
    var op := w.ops[i];
    assert OpSane(w, op);
    AbandonedByOutcome(w, i, id);
    if !op.phase.Opening? && !(op.phase.Acting? && op.job.Send?) {
      RefusedExactlyWhen(w, op);
    }
  }

  /** No other step abandons an operation, and one that is abandoned stays so. */
  lemma OnlyWritesAbandon(w: World, step: Step, i: nat)
    requires i in w.ops
    ensures i in Next(w, step).ops && Next(w, step).ops[i].request == w.ops[i].request
    ensures w.ops[i].phase.Abandoned? || w.ops[i].phase.Answered? ==> Next(w, step).ops[i] == w.ops[i]
    ensures !w.ops[i].phase.Abandoned? && Next(w, step).ops[i].phase.Abandoned? ==> step.Write? && step.op == i
  {}

  lemma {:induction false} ReturnedStaysReturned(w: World, steps: seq<Step>, i: nat)
    requires i in w.ops && (w.ops[i].phase.Abandoned? || w.ops[i].phase.Answered?)
    ensures i in Run(w, steps).ops && Run(w, steps).ops[i] == w.ops[i]
  {
    if steps != [] {
      ReturnedStaysReturned(w, steps[..|steps| - 1], i);
      OnlyWritesAbandon(Run(w, steps[..|steps| - 1]), steps[|steps| - 1], i);
    }
  }

  /** Once an operation has returned, its request stays open for good exactly when it was abandoned. */
  lemma OpenForGoodIffAbandoned(w: World, steps: seq<Step>, i: nat)
    requires Sound(w) && i in w.ops && (w.ops[i].phase.Abandoned? || w.ops[i].phase.Answered?)
    ensures !HasAnswer(LogOf(Run(w, steps), MAIN), w.ops[i].request) <==> w.ops[i].phase.Abandoned?
  {
    ReturnedStaysReturned(w, steps, i);
    EveryRunIsSound(w, steps);
    assert i in TrailOf(Run(w, steps)).requests && InOrder(TrailOf(Run(w, steps)), i);
  }

  // --- Two runs -------------------------------------------------------------------------------------

  /** A name that its task would take can be asked for, and gets as far as its record. */
  lemma NamingGetsGoing(w: World, i: nat, task: TaskId, name: string, id: EventId, w1: World, w2: World, w3: World)
    requires Replays(w) && i !in w.ops && !ContainsId(LogOf(w, MAIN), id) && task != MAIN && M.IsName(name)
    requires LogOf(w, task) != [] && !IsOver(StatusOf(task, LogOf(w, task)))
    requires w1 == Next(w, Ask(i, Name(task, name), id)) && w2 == Next(w1, Decide(i, 0))
             && w3 == Next(w2, Recover(i, false))
    ensures i in w3.ops && w3.ops[i].job == Name(task, name) && w3.ops[i].phase == Acting(LogOf(w, task), false)
    ensures LogOf(w3, task) == LogOf(w, task) && w3.ops[i].request == id
  {
    var main := LogOf(w, MAIN);
    FoldIsContiguous(MAIN, main);
    M.MainTakesManagement(Fold(MAIN, main).value, RequestOf(Name(task, name)).control);
    assert w1.ops[i].phase == Deciding;
    assert w2.ops[i].phase == Recovering;
  }

  /** A name whose child's log has grown loses its append, and looks again. */
  lemma NameLosesOnce(w: World, i: nat, seen: seq<Event>, id: EventId, t: World)
    requires i in w.ops && w.ops[i].job.Name? && w.ops[i].phase == Acting(seen, false)
    requires var task := w.ops[i].job.task;
             LogOf(w, task) != seen && Fold(task, seen).Success? && !IsOver(StatusOf(task, seen))
    requires t == Next(w, Write(i, id))
    ensures t == SetOp(w, i, w.ops[i].(phase := Acting(LogOf(w, w.ops[i].job.task), true)))
  {
    M.NameIsTaken(Fold(w.ops[i].job.task, seen).value, w.ops[i].job.name);
  }

  /** A name that then finds its task over is given up. */
  lemma NameIsGivenUp(w: World, i: nat, seen: seq<Event>, id: EventId, t: World)
    requires i in w.ops && w.ops[i].job.Name? && w.ops[i].phase == Acting(seen, true)
    requires Fold(w.ops[i].job.task, seen).Success? && IsOver(StatusOf(w.ops[i].job.task, seen))
    requires t == Next(w, Write(i, id))
    ensures t == SetOp(w, i, w.ops[i].(phase := Abandoned))
  {
    M.NameIsTaken(Fold(w.ops[i].job.task, seen).value, w.ops[i].job.name);
  }

  /** Meanwhile the task ends: the record loses once, then finds the task over, and the operation returns
      without an answer. */
  lemma LateFinishAbandons(w: World, i: nat, ending: Event, id: EventId, w1: World, w2: World, w3: World)
    requires i in w.ops && w.ops[i].job.Name? && w.ops[i].phase == Acting(LogOf(w, w.ops[i].job.task), false)
    requires var task := w.ops[i].job.task;
             && ending.task == task && task != MAIN && IsOther(w, ending)
             && Fold(task, LogOf(w, task)).Success? && !IsOver(StatusOf(task, LogOf(w, task)))
             && IsOver(StatusOf(task, LogOf(w, task) + [ending]))
    requires w1 == Next(w, Other(ending)) && w2 == Next(w1, Write(i, id)) && w3 == Next(w2, Write(i, id))
    ensures i in w3.ops && w3.ops[i] == w.ops[i].(phase := Abandoned)
  {
    var log := LogOf(w, w.ops[i].job.task);
    assert w1 == Append(w, ending);
    NameLosesOnce(w1, i, log, id, w2);
    NameIsGivenUp(w2, i, log + [ending], id, w3);
  }

  /** Hence a request can stay open for good: wherever a child is live, a name asked for and overtaken by
      the child's end is never answered. */
  lemma LateFinishLeavesRequestOpen(w: World, i: nat, task: TaskId, name: string, request: EventId, ending: Event,
                                    id: EventId,
                                    w3: World, w6: World, more: seq<Step>)
    requires Sound(w) && i !in w.ops && !ContainsId(LogOf(w, MAIN), request) && task != MAIN && M.IsName(name)
    requires LogOf(w, task) != [] && !IsOver(StatusOf(task, LogOf(w, task)))
    requires ending.task == task && IsOver(StatusOf(task, LogOf(w, task) + [ending]))
    requires w3 == Next(Next(Next(w, Ask(i, Name(task, name), request)), Decide(i, 0)), Recover(i, false))
    requires w6 == Next(Next(Next(w3, Other(ending)), Write(i, id)), Write(i, id))
    ensures i in w6.ops && w6.ops[i].request == request && !HasAnswer(LogOf(Run(w6, more), MAIN), request)
  {
    var w1, w4 := Next(w, Ask(i, Name(task, name), request)), Next(w3, Other(ending));
    var w2, w5 := Next(w1, Decide(i, 0)), Next(w4, Write(i, id));
    NamingGetsGoing(w, i, task, name, request, w1, w2, w3);
    LogReplays(w, task);
    LateFinishAbandons(w3, i, ending, id, w4, w5, w6);
    StepKeepsSound(w, Ask(i, Name(task, name), request), w1);
    StepKeepsSound(w1, Decide(i, 0), w2);
    StepKeepsSound(w2, Recover(i, false), w3);
    StepKeepsSound(w3, Other(ending), w4);
    StepKeepsSound(w4, Write(i, id), w5);
    StepKeepsSound(w5, Write(i, id), w6);
    OpenForGoodIffAbandoned(w6, more, i);
  }

  lemma AskGoesThrough(w: World, i: nat, job: Job, id: EventId, t: World)
    requires Replays(w) && i !in w.ops && !ContainsId(LogOf(w, MAIN), id) && IsPermitted(job)
             && t == Next(w, Ask(i, job, id))
    ensures |LogOf(t, MAIN)| == |LogOf(w, MAIN)| + 1 && LogOf(w, MAIN) <= LogOf(t, MAIN)
    ensures var e := LogOf(t, MAIN)[|LogOf(w, MAIN)|]; IsRequest(e) && e.id == id
    ensures t.tasks == w.tasks && t.ops == w.ops[i := Op(job, id, LogOf(t, MAIN), [], Deciding)]
  {
    var main := LogOf(w, MAIN);
    FoldIsContiguous(MAIN, main);
    M.MainTakesManagement(Fold(MAIN, main).value, RequestOf(job).control);
    assert LogOf(t, MAIN) == main + [Draft(AskRecord(main, job), id, None)];
  }

  /** An answer on the main log as last seen is written. */
  lemma AnswerGoesThrough(w: World, i: nat, id: EventId, t: World)
    requires Replays(w) && i in w.ops && w.ops[i].phase.Answering? && w.ops[i].phase.seen == LogOf(w, MAIN)
             && t == Next(w, Write(i, id))
    ensures |LogOf(t, MAIN)| == |LogOf(w, MAIN)| + 1 && LogOf(w, MAIN) <= LogOf(t, MAIN)
    ensures Answers(LogOf(t, MAIN)[|LogOf(w, MAIN)|], w.ops[i].request)
    ensures t.ops == w.ops[i := w.ops[i].(phase := Answered(w.ops[i].phase.accept))]
  {
    AnswerIsTaken(LogOf(w, MAIN), w.ops[i], w.ops[i].phase.accept);
    assert LogOf(t, MAIN) == LogOf(w, MAIN) + [Draft(RecordOf(w.ops[i]), id, Some(w.ops[i].request))];
  }

  /** One on an older view looks again. */
  lemma AnswerLooksAgain(w: World, i: nat, id: EventId, t: World)
    requires i in w.ops && w.ops[i].phase.Answering? && !w.ops[i].phase.retried
    requires Fold(MAIN, w.ops[i].phase.seen).Success? && w.ops[i].phase.seen != LogOf(w, MAIN)
             && t == Next(w, Write(i, id))
    ensures t == SetOp(w, i, w.ops[i].(phase := Answering(w.ops[i].phase.accept, LogOf(w, MAIN), true)))
  {
    AnswerIsTaken(w.ops[i].phase.seen, w.ops[i], w.ops[i].phase.accept);
  }

  /** Two operations that have asked one after the other may answer the other way round. */
  lemma AnswersCross(w: World, a: nat, b: nat, id: EventId, w1: World, w2: World, w3: World)
    requires Replays(w) && a in w.ops && b in w.ops && a != b && w.ops[a].phase.Answering? && w.ops[b].phase.Answering?
    requires w.ops[b].phase.seen == LogOf(w, MAIN) && w.ops[a].phase.seen < LogOf(w, MAIN) && !w.ops[a].phase.retried
    requires w1 == Next(w, Write(b, id)) && w2 == Next(w1, Write(a, id)) && w3 == Next(w2, Write(a, id))
    ensures var main, n := LogOf(w3, MAIN), |LogOf(w, MAIN)|;
            && |main| == n + 2 && LogOf(w, MAIN) <= main
            && Answers(main[n], w.ops[b].request) && Answers(main[n + 1], w.ops[a].request)
  {
    var seen := w.ops[a].phase.seen;
    LogReplays(w, MAIN);
    assert LogOf(w, MAIN)[..|seen|] == seen;
    FoldPrefix(MAIN, LogOf(w, MAIN), |seen|);
    AnswerGoesThrough(w, b, id, w1);
    StepKeepsLogs(w, Write(b, id), w1);
    AnswerLooksAgain(w1, a, id, w2);
    AnswerGoesThrough(w2, a, id, w3);
  }

  lemma StillFresh(log: seq<Event>, longer: seq<Event>, id: EventId)
    requires |longer| == |log| + 1 && log <= longer && !ContainsId(log, id) && longer[|log|].id != id
    ensures !ContainsId(longer, id)
  {}

  lemma CreationDecides(w: World, i: nat, now: nat, t: World)
    requires i in w.ops && w.ops[i].phase.Deciding? && w.ops[i].job.Create? && w.ops[i].job.task !in w.tasks
             && t == Next(w, Decide(i, now))
    ensures t == w.(ops := w.ops[i := ToAnswer(w.ops[i], true)], tasks := w.tasks + {w.ops[i].job.task})
  {}

  lemma TwoAsk(w: World, a: nat, b: nat, one: TaskId, two: TaskId, first: EventId, second: EventId, w1: World,
               w2: World)
    requires Replays(w) && a != b && a !in w.ops && b !in w.ops && first != second && one != MAIN && two != MAIN
    requires !ContainsId(LogOf(w, MAIN), first) && !ContainsId(LogOf(w, MAIN), second)
    requires w1 == Next(w, Ask(a, Create(one), first)) && w2 == Next(w1, Ask(b, Create(two), second))
    ensures Replays(w2) && w2.tasks == w.tasks && a in w2.ops && b in w2.ops
    ensures w2.ops[a] == Op(Create(one), first, LogOf(w1, MAIN), [], Deciding)
    ensures w2.ops[b] == Op(Create(two), second, LogOf(w2, MAIN), [], Deciding)
    ensures var main, n := LogOf(w2, MAIN), |LogOf(w, MAIN)|;
            && |main| == n + 2 && LogOf(w1, MAIN) < main
            && IsRequest(main[n]) && main[n].id == first && IsRequest(main[n + 1]) && main[n + 1].id == second
  {
    AskGoesThrough(w, a, Create(one), first, w1);
    StepKeepsLogs(w, Ask(a, Create(one), first), w1);
    StillFresh(LogOf(w, MAIN), LogOf(w1, MAIN), second);
    AskGoesThrough(w1, b, Create(two), second, w2);
    StepKeepsLogs(w1, Ask(b, Create(two), second), w2);
  }

  /** Two creations that have both asked and decided, neither having answered. */
  ghost predicate AreOverlapping(w: World, a: nat, b: nat, first: EventId, second: EventId, n: nat) {
    && Replays(w) && a in w.ops && b in w.ops && a != b && w.ops[a].phase.Answering? && w.ops[b].phase.Answering?
    && w.ops[a].request == first && w.ops[b].request == second
    && w.ops[b].phase.seen == LogOf(w, MAIN) && w.ops[a].phase.seen < LogOf(w, MAIN) && !w.ops[a].phase.retried
    && |LogOf(w, MAIN)| == n + 2 && IsRequest(LogOf(w, MAIN)[n]) && LogOf(w, MAIN)[n].id == first
    && IsRequest(LogOf(w, MAIN)[n + 1]) && LogOf(w, MAIN)[n + 1].id == second
  }

  lemma OverlapIsReached(w: World, a: nat, b: nat, one: TaskId, two: TaskId, first: EventId, second: EventId,
                         w1: World, w2: World, w3: World, w4: World)
    requires Replays(w) && a != b && a !in w.ops && b !in w.ops && first != second
    requires !ContainsId(LogOf(w, MAIN), first) && !ContainsId(LogOf(w, MAIN), second)
    requires one != two && one != MAIN && two != MAIN && one !in w.tasks && two !in w.tasks
    requires w1 == Next(w, Ask(a, Create(one), first)) && w2 == Next(w1, Ask(b, Create(two), second))
    requires w3 == Next(w2, Decide(a, 0)) && w4 == Next(w3, Decide(b, 0))
    ensures AreOverlapping(w4, a, b, first, second, |LogOf(w, MAIN)|)
  {
    TwoAsk(w, a, b, one, two, first, second, w1, w2);
    CreationDecides(w2, a, 0, w3);
    CreationDecides(w3, b, 0, w4);
  }

  /** Hence this run: request, request, answer to the second, answer to the first. */
  lemma OverlappingOperations(w: World, a: nat, b: nat, first: EventId, second: EventId, n: nat, id: EventId, w1: World,
                              w2: World, w3: World)
    requires AreOverlapping(w, a, b, first, second, n)
    requires w1 == Next(w, Write(b, id)) && w2 == Next(w1, Write(a, id)) && w3 == Next(w2, Write(a, id))
    ensures var main := LogOf(w3, MAIN);
            && |main| == n + 4 && IsRequest(main[n]) && main[n].id == first && IsRequest(main[n + 1])
            && main[n + 1].id == second
            && Answers(main[n + 2], second) && Answers(main[n + 3], first)
  {
    AnswersCross(w, a, b, id, w1, w2, w3);
  }
}
